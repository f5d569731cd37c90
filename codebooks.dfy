/** The runner form's codebook list and secret auto-fill (useCodebooks). */
module Codebooks {
  import opened Common
  import opened RunnerTypes

  /**
   * A codebook as the form uses it: the identifier it is selected by and
   * its secret, which may be null or absent.
   */
  datatype Codebook = Codebook(identifier: string, name: string, secret: Option<string>)

  /** `codebooks.find((item) => item.identifier === uid)`. */
  function FirstCodebookFor(codebooks: seq<Codebook>, uid: string): (r: Option<Codebook>)
    ensures r.None? <==> forall k :: 0 <= k < |codebooks| ==> codebooks[k].identifier != uid
    ensures forall k :: 0 <= k < |codebooks| && codebooks[k].identifier == uid
                        && (forall j :: 0 <= j < k ==> codebooks[j].identifier != uid)
                        ==> r == Some(codebooks[k])
  {
    FirstWhere(codebooks, (c: Codebook) => c.identifier == uid)
  }

  /** `computedSecret`: `matched?.secret ?? ""` for the form's `codebook_uid`. */
  function ComputedSecret(codebooks: seq<Codebook>, codebookUid: string): (secret: string)
    ensures (forall k :: 0 <= k < |codebooks| ==> codebooks[k].identifier != codebookUid) ==> secret == ""
    ensures forall k :: 0 <= k < |codebooks| && codebooks[k].identifier == codebookUid
                        && (forall j :: 0 <= j < k ==> codebooks[j].identifier != codebookUid)
                        ==> secret == codebooks[k].secret.GetOr("")
  {
    match FirstCodebookFor(codebooks, codebookUid)
    case Some(c) => c.secret.GetOr("")
    case None => ""
  }

  /** The form after the watch has written the computed secret into it. */
  function WithSecret(form: RegisterOrUpdateReq, codebooks: seq<Codebook>): (r: RegisterOrUpdateReq)
    ensures r.codebookSecret == ComputedSecret(codebooks, form.codebookUid)
    ensures r.(codebookSecret := form.codebookSecret) == form
  {
    form.(codebookSecret := ComputedSecret(codebooks, form.codebookUid))
  }

  /**
   * Firing the watch again changes nothing: the secret it writes does not
   * feed back into its own lookup.
   */
  lemma WithSecretSettles(form: RegisterOrUpdateReq, codebooks: seq<Codebook>)
    ensures WithSecret(WithSecret(form, codebooks), codebooks) == WithSecret(form, codebooks)
  {
  }

  /** The caller's form, shared by reference (`Ref<registerOrUpdateReq>`). */
  class FormRef {
    var value: RegisterOrUpdateReq

    constructor (value: RegisterOrUpdateReq)
      ensures this.value == value
    {
      this.value := value;
    }
  }

  /** The reactive state of one useCodebooks(formData) instance. */
  class CodebookStore {
    var codebooks: seq<Codebook>
    var loading: bool
    const formData: FormRef

    constructor (formData: FormRef)
      ensures this.formData == formData && codebooks == [] && !loading
    {
      this.formData := formData;
      codebooks := [];
      loading := false;
    }

    /** `fetchCodebooks`: one request for the first 100, resolved with `resp` (`data.codebooks`). */
    method FetchCodebooks(resp: Response<Option<seq<Codebook>>>) returns (offset: int, limit: int)
      modifies this`codebooks, this`loading
      ensures codebooks == if resp.Ok? then resp.data.GetOr([]) else []
      ensures offset == 0 && limit == 100
      ensures !loading
    {
      loading := true;
      offset, limit := 0, 100;
      match resp {
        case Ok(data) => codebooks := data.GetOr([]);
        case Failed => codebooks := [];
      }
      loading := false;
    }

    /** The watch on `computedSecret`: write it into `formData.codebook_secret`. */
    method SyncSecret()
      modifies formData
      ensures formData.value == WithSecret(old(formData.value), codebooks)
    {
      var secret := ComputedSecret(codebooks, formData.value.codebookUid);
      formData.value := formData.value.(codebookSecret := secret);
    }
  }
}

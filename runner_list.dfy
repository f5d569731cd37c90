/**
 * The codebook page's runner lists (useRunner): the full runner list, the
 * paginated runners of one codebook, the paginated runners that could be
 * forked into it, and the confirm-then-delete flow.
 */
module RunnerList {
  import opened Common
  import opened RunnerTypes

  /** A paginated runner list and its total, as the composable keeps them. */
  datatype Paged = Paged(items: seq<Runner>, total: int)

  /**
   * How one resolved request of fetchCodebookRunners or
   * fetchExcludeCodebookRunners changes its list and total, in append mode
   * (infinite scroll) or replace mode (page jump).
   */
  function LoadPage(before: Paged, isAppend: bool, resp: Response<RunnerPage>): (after: Paged)
    ensures isAppend ==> |before.items| <= |after.items| && after.items[..|before.items|] == before.items
    ensures resp.Failed? ==> after.total == before.total
    ensures resp.Failed? && isAppend ==> after == before
    ensures resp.Failed? && !isAppend ==> after.items == []
  {
    match resp
    case Ok(page) =>
      var runners := page.runners.GetOr([]);
      Paged(if isAppend then before.items + runners else runners, page.total.GetOr(0))
    case Failed =>
      Paged(if isAppend then before.items else [], before.total)
  }

  /** Append mode keeps the loaded runners as a prefix and adds the page after them. */
  lemma AppendExtends(before: Paged, resp: Response<RunnerPage>)
    ensures var after := LoadPage(before, true, resp);
            && |before.items| <= |after.items|
            && after.items[..|before.items|] == before.items
            && after.items[|before.items|..] == (if resp.Ok? then resp.data.runners.GetOr([]) else [])
  {
  }

  /** Replace mode forgets the previous list: the result depends on the response alone. */
  lemma ReplaceForgets(a: Paged, b: Paged, resp: Response<RunnerPage>)
    ensures LoadPage(a, false, resp).items == LoadPage(b, false, resp).items
    ensures LoadPage(a, false, resp).items == if resp.Ok? then resp.data.runners.GetOr([]) else []
  {
  }

  /**
   * The total follows a successful response (missing counts as 0) and is
   * never touched by a failure; a failed append is a no-op.
   */
  lemma TotalRules(before: Paged, isAppend: bool, resp: Response<RunnerPage>)
    ensures resp.Ok? ==> LoadPage(before, isAppend, resp).total == resp.data.total.GetOr(0)
    ensures resp.Failed? ==> LoadPage(before, isAppend, resp).total == before.total
    ensures resp.Failed? && isAppend ==> LoadPage(before, isAppend, resp) == before
  {
  }

  /** The runners of a run of pages, in page order, a missing list counting as none. */
  function PagesRunners(pages: seq<RunnerPage>): seq<Runner> {
    if pages == [] then [] else pages[0].runners.GetOr([]) + PagesRunners(pages[1..])
  }

  /** Successful append-mode loads of `pages`, one after another. */
  function ScrollThrough(p: Paged, pages: seq<RunnerPage>): Paged
    decreases pages
  {
    if pages == [] then p else ScrollThrough(LoadPage(p, true, Ok(pages[0])), pages[1..])
  }

  /**
   * Infinite scroll: after successful appends the list is the old list
   * followed by every page's runners in order, and the total is the last
   * page's.
   */
  lemma {:induction false} ScrollAccumulates(p: Paged, pages: seq<RunnerPage>)
    ensures ScrollThrough(p, pages).items == p.items + PagesRunners(pages)
    ensures pages != [] ==> ScrollThrough(p, pages).total == pages[|pages| - 1].total.GetOr(0)
    decreases pages
  {
    if pages != [] {
      var next := LoadPage(p, true, Ok(pages[0]));
      ScrollAccumulates(next, pages[1..]);
      assert next.items == p.items + pages[0].runners.GetOr([]);
      if |pages| > 1 {
        assert pages[1..][|pages[1..]| - 1] == pages[|pages| - 1];
      }
    }
  }

  /** The defaults of fetchCodebookRunners and fetchExcludeCodebookRunners for an omitted argument. */
  const DefaultOffset := 0
  const DefaultLimit := 20
  const DefaultIsAppend := false

  /** What deleteRunner does, in order. */
  datatype DeleteEffect = ConfirmPrompt(name: string) | DeleteRequest(id: int) | OnSuccessCalled

  /** The reactive state of one useRunner() instance. */
  class RunnerStore {
    var allRunners: seq<Runner>
    var allRunnersTotal: int
    var codebookRunners: seq<Runner>
    var codebookRunnersTotal: int
    var forkableRunners: seq<Runner>
    var forkableRunnersTotal: int
    var loading: bool

    constructor ()
      ensures allRunners == [] && codebookRunners == [] && forkableRunners == []
      ensures allRunnersTotal == 0 && codebookRunnersTotal == 0 && forkableRunnersTotal == 0
      ensures !loading
    {
      allRunners, codebookRunners, forkableRunners := [], [], [];
      allRunnersTotal, codebookRunnersTotal, forkableRunnersTotal := 0, 0, 0;
      loading := false;
    }

    /** `fetchRunners`: one request for the first 1000 runners, resolved with `resp`. */
    method FetchRunners(resp: Response<RunnerPage>) returns (req: ListRunnerReq)
      modifies this`allRunners, this`allRunnersTotal
      ensures req == ListRunnerReq(0, 1000)
      ensures resp.Ok? ==> allRunners == resp.data.runners.GetOr([]) && allRunnersTotal == resp.data.total.GetOr(0)
      ensures resp.Failed? ==> allRunners == [] && allRunnersTotal == 0
    {
      req := ListRunnerReq(0, 1000);
      match resp {
        case Ok(data) =>
          allRunners := data.runners.GetOr([]);
          allRunnersTotal := data.total.GetOr(0);
        case Failed =>
          allRunners := [];
          allRunnersTotal := 0;
      }
    }

    /**
     * `fetchCodebookRunners`, resolved with `resp`. `loadingInFlight` is the
     * loading flag while the request is pending: raised only in replace mode.
     */
    method FetchCodebookRunners(codebookUid: string, offset: int, limit: int, keyword: Option<string>,
                                kind: Option<Kind>, isAppend: bool, resp: Response<RunnerPage>)
      returns (req: ListByCodebookIdReq, loadingInFlight: bool)
      modifies this`codebookRunners, this`codebookRunnersTotal, this`loading
      ensures req == ListByCodebookIdReq(codebookUid, offset, limit, keyword, kind)
      ensures loadingInFlight == (!isAppend || old(loading))
      ensures Paged(codebookRunners, codebookRunnersTotal)
              == LoadPage(old(Paged(codebookRunners, codebookRunnersTotal)), isAppend, resp)
      ensures !loading
    {
      if !isAppend {
        loading := true;
      }
      loadingInFlight := loading;
      req := ListByCodebookIdReq(codebookUid, offset, limit, keyword, kind);
      match resp {
        case Ok(data) =>
          if isAppend {
            codebookRunners := codebookRunners + data.runners.GetOr([]);
          } else {
            codebookRunners := data.runners.GetOr([]);
          }
          codebookRunnersTotal := data.total.GetOr(0);
        case Failed =>
          if !isAppend {
            codebookRunners := [];
          }
      }
      loading := false;
    }

    /**
     * `fetchCodebookRunners(codebookUid)` with every other argument omitted:
     * the first 20 runners, replacing the list.
     */
    method FetchCodebookRunnersFirstPage(codebookUid: string, resp: Response<RunnerPage>)
      returns (req: ListByCodebookIdReq, loadingInFlight: bool)
      modifies this`codebookRunners, this`codebookRunnersTotal, this`loading
      ensures req == ListByCodebookIdReq(codebookUid, 0, 20, None, None)
      ensures loadingInFlight
      ensures Paged(codebookRunners, codebookRunnersTotal)
              == LoadPage(old(Paged(codebookRunners, codebookRunnersTotal)), false, resp)
      ensures !loading
    {
      req, loadingInFlight := FetchCodebookRunners(codebookUid, DefaultOffset, DefaultLimit, None, None, DefaultIsAppend, resp);
    }

    /** `fetchExcludeCodebookRunners`: the same rules, on the forkable list only. */
    method FetchExcludeCodebookRunners(codebookUid: string, offset: int, limit: int, keyword: Option<string>,
                                       kind: Option<Kind>, isAppend: bool, resp: Response<RunnerPage>)
      returns (req: ListByCodebookIdReq, loadingInFlight: bool)
      modifies this`forkableRunners, this`forkableRunnersTotal, this`loading
      ensures req == ListByCodebookIdReq(codebookUid, offset, limit, keyword, kind)
      ensures loadingInFlight == (!isAppend || old(loading))
      ensures Paged(forkableRunners, forkableRunnersTotal)
              == LoadPage(old(Paged(forkableRunners, forkableRunnersTotal)), isAppend, resp)
      ensures !loading
    {
      if !isAppend {
        loading := true;
      }
      loadingInFlight := loading;
      req := ListByCodebookIdReq(codebookUid, offset, limit, keyword, kind);
      match resp {
        case Ok(data) =>
          if isAppend {
            forkableRunners := forkableRunners + data.runners.GetOr([]);
          } else {
            forkableRunners := data.runners.GetOr([]);
          }
          forkableRunnersTotal := data.total.GetOr(0);
        case Failed =>
          if !isAppend {
            forkableRunners := [];
          }
      }
      loading := false;
    }

    /** `fetchExcludeCodebookRunners(codebookUid)` with every other argument omitted. */
    method FetchExcludeCodebookRunnersFirstPage(codebookUid: string, resp: Response<RunnerPage>)
      returns (req: ListByCodebookIdReq, loadingInFlight: bool)
      modifies this`forkableRunners, this`forkableRunnersTotal, this`loading
      ensures req == ListByCodebookIdReq(codebookUid, 0, 20, None, None)
      ensures loadingInFlight
      ensures Paged(forkableRunners, forkableRunnersTotal)
              == LoadPage(old(Paged(forkableRunners, forkableRunnersTotal)), false, resp)
      ensures !loading
    {
      req, loadingInFlight := FetchExcludeCodebookRunners(codebookUid, DefaultOffset, DefaultLimit, None, None, DefaultIsAppend, resp);
    }

    /**
     * `deleteRunner(row, onSuccess)`: ask, delete when confirmed, call back
     * when the delete succeeded; cancellation and failure are swallowed and
     * no state changes (the method modifies nothing).
     */
    method DeleteRunner(row: Runner, confirmed: bool, deleteOk: bool, hasOnSuccess: bool)
      returns (effects: seq<DeleteEffect>)
      ensures |effects| >= 1 && effects[0] == ConfirmPrompt(row.name)
      ensures DeleteRequest(row.id) in effects <==> confirmed
      ensures OnSuccessCalled in effects <==> confirmed && deleteOk && hasOnSuccess
      ensures OnSuccessCalled in effects ==> effects == [ConfirmPrompt(row.name), DeleteRequest(row.id), OnSuccessCalled]
      ensures forall k :: 1 <= k < |effects| ==> effects[k] != ConfirmPrompt(row.name)
      ensures !confirmed ==> effects == [ConfirmPrompt(row.name)]
      ensures confirmed && !(deleteOk && hasOnSuccess) ==> effects == [ConfirmPrompt(row.name), DeleteRequest(row.id)]
    {
      effects := [ConfirmPrompt(row.name)];
      if confirmed {
        effects := effects + [DeleteRequest(row.id)];
        if deleteOk && hasOnSuccess {
          effects := effects + [OnSuccessCalled];
        }
      }
    }
  }
}

/**
 * The order-start page's template state (useTemplateData): the template
 * groups, the user's favourite templates, the `empty`/`loading` flags, and
 * the optimistic favourite toggle with its rollback.
 */
module TemplateData {
  import opened Common
  import opened TemplateTypes

  /** `favoriteIds`: the ids of a template list, in list order. */
  function IdsOf(ts: seq<Template>): (ids: seq<int>)
    ensures |ids| == |ts|
    ensures forall i :: 0 <= i < |ts| ==> ids[i] == ts[i].id
  {
    seq(|ts|, i requires 0 <= i < |ts| => ts[i].id)
  }

  /** No two templates of the list share an id. */
  predicate DistinctIds(ts: seq<Template>) {
    forall i, j :: 0 <= i < j < |ts| ==> ts[i].id != ts[j].id
  }

  /** `ts.findIndex((t) => t.id === id)`: the first index holding `id`, or -1. */
  function FindIndexById(ts: seq<Template>, id: int): (r: int)
    ensures -1 <= r < |ts|
    ensures r >= 0 ==> ts[r].id == id
    ensures forall j :: 0 <= j < |ts| && (r < 0 || j < r) ==> ts[j].id != id
  {
    if ts == [] then -1
    else if ts[0].id == id then 0
    else
      var k := FindIndexById(ts[1..], id);
      if k < 0 then -1 else k + 1
  }

  /** `ts.find((t) => t.id === id)`. */
  function FirstWithId(ts: seq<Template>, id: int): (r: Option<Template>)
    ensures r.None? <==> forall i :: 0 <= i < |ts| ==> ts[i].id != id
    ensures r.Some? ==> r.value.id == id && r.value in ts
    ensures forall k :: 0 <= k < |ts| && ts[k].id == id && (forall j :: 0 <= j < k ==> ts[j].id != id)
                        ==> r == Some(ts[k])
  {
    FirstWhere(ts, (t: Template) => t.id == id)
  }

  /**
   * The template the toggle's `for ... break` loop finds: the first template
   * with `id` in the first group whose list holds one.
   */
  function FindInGroups(groups: seq<TemplateGroup>, id: int): (r: Option<Template>)
    ensures r.Some? ==> r.value.id == id
    ensures r.None? <==> forall k :: 0 <= k < |groups| ==> FirstWithId(TemplatesOf(groups[k]), id).None?
    ensures forall k :: 0 <= k < |groups| && FirstWithId(TemplatesOf(groups[k]), id).Some?
                        && (forall j :: 0 <= j < k ==> FirstWithId(TemplatesOf(groups[j]), id).None?)
                        ==> r == FirstWithId(TemplatesOf(groups[k]), id)
  {
    if groups == [] then None
    else
      var found := FirstWithId(TemplatesOf(groups[0]), id);
      if found.Some? then found
      else
        var rest := FindInGroups(groups[1..], id);
        assert forall k :: 1 <= k < |groups| ==> groups[1..][k - 1] == groups[k];
        rest
  }

  /** The stand-in the toggle builds when no group holds the template. */
  function Placeholder(id: int): Template {
    Template(id, Some("未知模板"), "Flag", None, None, None)
  }

  /** The template an add appends: the one found in the groups, else the placeholder. */
  function AddedTemplate(groups: seq<TemplateGroup>, id: int): (t: Template)
    ensures t.id == id
  {
    FindInGroups(groups, id).GetOr(Placeholder(id))
  }

  /**
   * An add appends the first template with `id` of the first group that
   * holds one, and the placeholder when no group does.
   */
  lemma AddedTemplateIsFirstFound(groups: seq<TemplateGroup>, id: int)
    ensures (forall k :: 0 <= k < |groups| ==> FirstWithId(TemplatesOf(groups[k]), id).None?)
            ==> AddedTemplate(groups, id) == Placeholder(id)
    ensures forall k :: 0 <= k < |groups| && FirstWithId(TemplatesOf(groups[k]), id).Some?
                        && (forall j :: 0 <= j < k ==> FirstWithId(TemplatesOf(groups[j]), id).None?)
                        ==> AddedTemplate(groups, id) == FirstWithId(TemplatesOf(groups[k]), id).value
  {
  }

  /** `splice(i, 1)` on a list. */
  function RemoveAt(ts: seq<Template>, i: int): seq<Template>
    requires 0 <= i < |ts|
  {
    ts[..i] + ts[i + 1..]
  }

  /**
   * The favourites after `toggleFavorite(id)` when the toggle API call
   * succeeds (`apiOk`) or fails, from the favourites `favs` before the call.
   */
  function ToggledFavorites(groups: seq<TemplateGroup>, favs: seq<Template>, id: int, apiOk: bool): (r: seq<Template>)
    ensures apiOk && id !in IdsOf(favs) ==> |r| == |favs| + 1
    ensures apiOk && id in IdsOf(favs) ==> |r| == |favs| - 1
    ensures !apiOk ==> |r| == |favs|
  {
    if id !in IdsOf(favs) then
      var added := favs + [AddedTemplate(groups, id)];
      assert added[|favs|].id == id;
      if apiOk then added
      else
        var back := FindIndexById(added, id);
        if back < 0 then added else RemoveAt(added, back)
    else
      var i := FindIndexById(favs, id);
      if i < 0 then favs
      else if apiOk then RemoveAt(favs, i)
      else RemoveAt(favs, i) + [favs[i]]
  }

  /** `getTotalTemplateCount`: `reduce((total, item) => total + item.templates.length, 0)`. */
  function TotalTemplateCount(groups: seq<TemplateGroup>): (n: nat)
    requires forall k :: 0 <= k < |groups| ==> groups[k].templates.Some?
    ensures forall k :: 0 <= k < |groups| ==> |groups[k].templates.value| <= n
    ensures n == 0 <==> forall k :: 0 <= k < |groups| ==> groups[k].templates.value == []
  {
    CountFrom(0, groups)
  }

  /** The `reduce` fold with the running total `acc`. */
  function CountFrom(acc: nat, groups: seq<TemplateGroup>): (n: nat)
    requires forall k :: 0 <= k < |groups| ==> groups[k].templates.Some?
    ensures forall k :: 0 <= k < |groups| ==> acc + |groups[k].templates.value| <= n
    ensures n == acc <==> forall k :: 0 <= k < |groups| ==> groups[k].templates.value == []
    decreases groups
  {
    if groups == [] then acc
    else
      var n := CountFrom(acc + |groups[0].templates.value|, groups[1..]);
      assert forall k :: 1 <= k < |groups| ==> groups[1..][k - 1] == groups[k];
      n
  }

  /** The reactive state of one useTemplateData() instance. */
  class TemplateStore {
    var templateCombinations: seq<TemplateGroup>
    var favoriteTemplates: seq<Template>
    var empty: bool
    var loading: bool

    constructor ()
      ensures templateCombinations == [] && favoriteTemplates == []
      ensures !empty && !loading
    {
      templateCombinations := [];
      favoriteTemplates := [];
      empty := false;
      loading := false;
    }

    /** `listTemplateCombinations`, resolved with `resp`. */
    method ListTemplateCombinations(resp: Response<Option<seq<TemplateGroup>>>)
      modifies this`templateCombinations, this`empty, this`loading
      ensures resp.Ok? ==> templateCombinations == resp.data.GetOr([])
      ensures resp.Failed? ==> templateCombinations == []
      ensures empty <==> templateCombinations == []
      ensures !loading
    {
      loading := true;
      match resp {
        case Ok(data) =>
          templateCombinations := data.GetOr([]);
          empty := |templateCombinations| == 0;
        case Failed =>
          templateCombinations := [];
          empty := true;
      }
      loading := false;
    }

    /** `fetchFavoriteList`, resolved with `resp` (`data?.templates`). */
    method FetchFavoriteList(resp: Response<Option<seq<Template>>>)
      modifies this`favoriteTemplates
      ensures favoriteTemplates == if resp.Ok? then resp.data.GetOr([]) else []
    {
      match resp {
        case Ok(templates) => favoriteTemplates := templates.GetOr([]);
        case Failed => favoriteTemplates := [];
      }
    }

    /** The toggle's search: scan the groups in order and stop at the first hit. */
    method FindTarget(id: int) returns (target: Option<Template>)
      ensures target == FindInGroups(templateCombinations, id)
    {
      target := None;
      var k := 0;
      while k < |templateCombinations|
        invariant 0 <= k <= |templateCombinations|
        invariant FindInGroups(templateCombinations[k..], id) == FindInGroups(templateCombinations, id)
      {
        var found := FirstWithId(TemplatesOf(templateCombinations[k]), id);
        if found.Some? {
          assert templateCombinations[k..][0] == templateCombinations[k];
          target := found;
          break;
        }
        assert templateCombinations[k..][1..] == templateCombinations[k + 1..];
        k := k + 1;
      }
    }

    /**
     * `toggleFavorite(id)`: the optimistic edit of the favourites, then the
     * rollback when the API call fails (`!apiOk`).
     */
    method ToggleFavorite(id: int, apiOk: bool)
      modifies this`favoriteTemplates
      ensures favoriteTemplates == ToggledFavorites(templateCombinations, old(favoriteTemplates), id, apiOk)
    {
      var isAdding := id !in IdsOf(favoriteTemplates);
      var target: Option<Template> := None;

      if isAdding {
        target := FindTarget(id);
        if target.Some? {
          favoriteTemplates := favoriteTemplates + [target.value];
        } else {
          target := Some(Placeholder(id));
          favoriteTemplates := favoriteTemplates + [target.value];
        }
      } else {
        var favIndex := FindIndexById(favoriteTemplates, id);
        if favIndex != -1 {
          target := Some(favoriteTemplates[favIndex]);
          favoriteTemplates := RemoveAt(favoriteTemplates, favIndex);
        }
      }

      if !apiOk {
        if isAdding {
          var rollbackIndex := FindIndexById(favoriteTemplates, id);
          if rollbackIndex != -1 {
            favoriteTemplates := RemoveAt(favoriteTemplates, rollbackIndex);
          }
        } else {
          if target.Some? {
            favoriteTemplates := favoriteTemplates + [target.value];
          } else {
            // The refresh fallback: the id was in favoriteIds, so a template was removed.
            assert false;
          }
        }
      }
    }
  }

  // ---------------------------------------------------------------------------
  // Properties of the toggle

  lemma IdsOfAppend(a: seq<Template>, b: seq<Template>)
    ensures IdsOf(a + b) == IdsOf(a) + IdsOf(b)
  {
  }

  lemma IdsOfRemoveAt(ts: seq<Template>, i: int)
    requires 0 <= i < |ts|
    ensures IdsOf(RemoveAt(ts, i)) == IdsOf(ts)[..i] + IdsOf(ts)[i + 1..]
  {
  }

  /** An id is listed exactly when some template carries it. */
  lemma InIdsOf(ts: seq<Template>, id: int)
    ensures id in IdsOf(ts) <==> exists j :: 0 <= j < |ts| && ts[j].id == id
  {
    if exists j :: 0 <= j < |ts| && ts[j].id == id {
      var j :| 0 <= j < |ts| && ts[j].id == id;
      assert IdsOf(ts)[j] == id;
    }
  }

  /** Adding an absent id appends exactly one template with that id; earlier entries stay. */
  lemma ToggleAddAppends(groups: seq<TemplateGroup>, favs: seq<Template>, id: int)
    requires id !in IdsOf(favs)
    ensures ToggledFavorites(groups, favs, id, true) == favs + [AddedTemplate(groups, id)]
    ensures var r := ToggledFavorites(groups, favs, id, true);
            |r| == |favs| + 1 && r[..|favs|] == favs && r[|favs|].id == id
  {
  }

  /** Removing a present id drops only its first occurrence and keeps the rest in order. */
  lemma ToggleRemoveDropsFirst(groups: seq<TemplateGroup>, favs: seq<Template>, id: int)
    requires id in IdsOf(favs)
    ensures var i := FindIndexById(favs, id);
            && 0 <= i && favs[i].id == id
            && (forall j :: 0 <= j < i ==> favs[j].id != id)
            && ToggledFavorites(groups, favs, id, true) == favs[..i] + favs[i + 1..]
  {
    InIdsOf(favs, id);
  }

  /** An add whose API call fails leaves the favourites exactly as they were. */
  lemma {:induction false} AddFailureRestores(groups: seq<TemplateGroup>, favs: seq<Template>, id: int)
    requires id !in IdsOf(favs)
    ensures ToggledFavorites(groups, favs, id, false) == favs
  {
    var added := favs + [AddedTemplate(groups, id)];
    forall j | 0 <= j < |favs| ensures added[j].id != id {
      assert IdsOf(favs)[j] == favs[j].id;
    }
    assert added[|favs|].id == id;
    var back := FindIndexById(added, id);
    assert back == |favs|;
    assert RemoveAt(added, back) == favs;
  }

  /**
   * A remove whose API call fails keeps the same templates, but the removed
   * one comes back at the end, not at its old index.
   */
  lemma RemoveFailureReappends(groups: seq<TemplateGroup>, favs: seq<Template>, id: int)
    requires id in IdsOf(favs)
    ensures var i := FindIndexById(favs, id);
            var r := ToggledFavorites(groups, favs, id, false);
            && 0 <= i
            && r == favs[..i] + favs[i + 1..] + [favs[i]]
            && multiset(r) == multiset(favs)
            && r[|r| - 1].id == id
  {
    InIdsOf(favs, id);
    var i := FindIndexById(favs, id);
    MoveToEndKeepsMultiset(favs, i);
  }

  lemma MoveToEndKeepsMultiset<T>(s: seq<T>, i: int)
    requires 0 <= i < |s|
    ensures multiset(s[..i] + s[i + 1..] + [s[i]]) == multiset(s)
  {
    calc {
      multiset(s[..i] + s[i + 1..] + [s[i]]);
      multiset(s[..i]) + multiset(s[i + 1..]) + multiset([s[i]]);
      multiset(s[..i] + [s[i]] + s[i + 1..]);
      { assert s[..i] + [s[i]] + s[i + 1..] == s; }
      multiset(s);
    }
  }

  /** Toggling never creates a duplicate favourite id. */
  lemma TogglePreservesDistinct(groups: seq<TemplateGroup>, favs: seq<Template>, id: int, apiOk: bool)
    requires DistinctIds(favs)
    ensures DistinctIds(ToggledFavorites(groups, favs, id, apiOk))
  {
    var r := ToggledFavorites(groups, favs, id, apiOk);
    if id !in IdsOf(favs) {
      if apiOk {
        forall j | 0 <= j < |favs| ensures favs[j].id != id {
          assert IdsOf(favs)[j] == favs[j].id;
        }
      } else {
        AddFailureRestores(groups, favs, id);
      }
    } else {
      InIdsOf(favs, id);
      var i := FindIndexById(favs, id);
      var removed := RemoveAt(favs, i);
      assert DistinctIds(removed) by {
        forall a, b | 0 <= a < b < |removed| ensures removed[a].id != removed[b].id {
          var a' := if a < i then a else a + 1;
          var b' := if b < i then b else b + 1;
          assert removed[a] == favs[a'] && removed[b] == favs[b'];
        }
      }
      if !apiOk {
        forall j | 0 <= j < |removed| ensures removed[j].id != id {
          var j' := if j < i then j else j + 1;
          assert removed[j] == favs[j'];
        }
      }
    }
  }

  /** Two successful toggles of an absent id restore the favourites exactly. */
  lemma ToggleTwiceRestores(groups: seq<TemplateGroup>, favs: seq<Template>, id: int)
    requires id !in IdsOf(favs)
    ensures ToggledFavorites(groups, ToggledFavorites(groups, favs, id, true), id, true) == favs
  {
    var added := favs + [AddedTemplate(groups, id)];
    assert IdsOf(added)[|favs|] == id;
    forall j | 0 <= j < |favs| ensures added[j].id != id {
      assert IdsOf(favs)[j] == favs[j].id;
    }
    assert FindIndexById(added, id) == |favs|;
    assert RemoveAt(added, |favs|) == favs;
  }

  /**
   * Two successful toggles of a present id restore the set of favourite ids
   * (the template comes back at the end, and may be a different record).
   */
  lemma RemoveThenAddRestoresIds(groups: seq<TemplateGroup>, favs: seq<Template>, id: int)
    requires DistinctIds(favs) && id in IdsOf(favs)
    ensures multiset(IdsOf(ToggledFavorites(groups, ToggledFavorites(groups, favs, id, true), id, true)))
            == multiset(IdsOf(favs))
  {
    InIdsOf(favs, id);
    var i := FindIndexById(favs, id);
    var removed := RemoveAt(favs, i);
    forall j | 0 <= j < |removed| ensures removed[j].id != id {
      var j' := if j < i then j else j + 1;
      assert removed[j] == favs[j'];
    }
    InIdsOf(removed, id);
    var back := removed + [AddedTemplate(groups, id)];
    assert ToggledFavorites(groups, removed, id, true) == back;
    IdsOfAppend(removed, [AddedTemplate(groups, id)]);
    IdsOfRemoveAt(favs, i);
    var ids := IdsOf(favs);
    assert ids == ids[..i] + [ids[i]] + ids[i + 1..];
    assert IdsOf(back) == ids[..i] + ids[i + 1..] + [id];
  }
}

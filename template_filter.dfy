/**
 * The order-start page's category and search filter (useTemplateFilter):
 * the flattened template list, the source list of the selected category,
 * the trimmed case-insensitive name search, and the category title.
 */
module TemplateFilter {
  import opened Common
  import opened Text
  import opened TemplateTypes
  import TemplateData

  /** `selectedCategory`: "all", "favorites", or a group id. */
  datatype Category = All | Favorites | Group(id: int)

  /** `allTemplates`: every group's templates, in group order (`flatMap`). */
  function AllTemplates(groups: seq<TemplateGroup>): (r: seq<Template>)
    ensures forall t :: t in r <==> exists k :: 0 <= k < |groups| && t in TemplatesOf(groups[k])
    ensures |groups| == 1 ==> r == TemplatesOf(groups[0])
  {
    if groups == [] then []
    else
      var rest := AllTemplates(groups[1..]);
      assert forall k :: 1 <= k < |groups| ==> groups[1..][k - 1] == groups[k];
      TemplatesOf(groups[0]) + rest
  }

  /** Flattening distributes over concatenation: group order is kept. */
  lemma {:induction false} AllTemplatesAppend(a: seq<TemplateGroup>, b: seq<TemplateGroup>)
    ensures AllTemplates(a + b) == AllTemplates(a) + AllTemplates(b)
  {
    if a != [] {
      assert (a + b)[1..] == a[1..] + b;
      AllTemplatesAppend(a[1..], b);
    } else {
      assert a + b == b;
    }
  }

  /** `groups.find((item) => item.id === id)`. */
  function FirstGroupWithId(groups: seq<TemplateGroup>, id: int): (r: Option<TemplateGroup>)
    ensures r.None? <==> forall k :: 0 <= k < |groups| ==> groups[k].id != id
    ensures forall k :: 0 <= k < |groups| && groups[k].id == id && (forall j :: 0 <= j < k ==> groups[j].id != id)
                        ==> r == Some(groups[k])
  {
    FirstWhere(groups, (g: TemplateGroup) => g.id == id)
  }

  /** The list the selected category shows before the search is applied. */
  function CategorySource(cat: Category, groups: seq<TemplateGroup>, favs: seq<Template>): (r: seq<Template>)
    ensures cat == Favorites ==> r == favs
    ensures cat == All ==> r == AllTemplates(groups)
    ensures cat.Group? ==> forall t :: t in r ==> t in AllTemplates(groups)
  {
    match cat
    case All => AllTemplates(groups)
    case Favorites => favs
    case Group(id) =>
      match FirstGroupWithId(groups, id)
      case Some(g) => TemplatesOf(g)
      case None => []
  }

  /** A numeric category shows the first group with that id; an unknown id shows nothing. */
  lemma GroupCategorySource(groups: seq<TemplateGroup>, favs: seq<Template>, id: int)
    ensures (forall k :: 0 <= k < |groups| ==> groups[k].id != id) ==> CategorySource(Group(id), groups, favs) == []
    ensures forall k :: 0 <= k < |groups| && groups[k].id == id && (forall j :: 0 <= j < k ==> groups[j].id != id)
                        ==> CategorySource(Group(id), groups, favs) == TemplatesOf(groups[k])
  {
  }

  /** `getSelectedCategoryName`. */
  function SelectedCategoryName(cat: Category, groups: seq<TemplateGroup>): (name: string)
    ensures cat == Favorites ==> name == "我的收藏"
    ensures cat == All ==> name == "全部工单模板"
    ensures cat.Group? && (forall k :: 0 <= k < |groups| ==> groups[k].id != cat.id) ==> name == ""
    ensures forall k :: cat.Group? && 0 <= k < |groups| && groups[k].id == cat.id
                        && (forall j :: 0 <= j < k ==> groups[j].id != cat.id)
                        ==> name == groups[k].name
  {
    match cat
    case Favorites => "我的收藏"
    case All => "全部工单模板"
    case Group(id) =>
      match FirstGroupWithId(groups, id)
      case Some(g) => g.name
      case None => ""
  }

  /** `t.name?.toLowerCase().includes(q)`, for an already lowered query `q`. */
  predicate Matches(t: Template, q: string) {
    t.name.Some? && Contains(Lower(t.name.value), q)
  }

  /** `a` is `b` with some elements left out, the rest in their order. */
  predicate IsSubsequence(a: seq<Template>, b: seq<Template>)
    decreases |b|
  {
    if a == [] then true
    else if b == [] then false
    else if a[0] == b[0] then IsSubsequence(a[1..], b[1..])
    else IsSubsequence(a, b[1..])
  }

  /**
   * `source.filter(...)` with the lowered query `q`: every occurrence of a
   * matching template is kept, in order, and nothing else.
   */
  function KeepMatching(source: seq<Template>, q: string): (r: seq<Template>)
    ensures IsSubsequence(r, source)
    ensures forall t :: t in r <==> t in source && Matches(t, q)
    ensures forall t :: multiset(r)[t] == if Matches(t, q) then multiset(source)[t] else 0
  {
    if source == [] then []
    else
      assert source == [source[0]] + source[1..];
      var rest := KeepMatching(source[1..], q);
      if Matches(source[0], q) then
        assert ([source[0]] + rest)[1..] == rest;
        [source[0]] + rest
      else
        rest
  }

  /** The search step of `filteredTemplates`: trim, lower, and filter when non-empty. */
  function ApplyQuery(source: seq<Template>, searchQuery: string): (r: seq<Template>)
    ensures IsSubsequence(r, source)
    ensures forall t :: multiset(r)[t] <= multiset(source)[t]
    ensures Trim(searchQuery) == [] ==> r == source
  {
    var q := Lower(Trim(searchQuery));
    if q != "" then KeepMatching(source, q)
    else
      SubsequenceOfItself(source);
      source
  }

  lemma {:induction false} SubsequenceOfItself(s: seq<Template>)
    ensures IsSubsequence(s, s)
  {
    if s != [] {
      SubsequenceOfItself(s[1..]);
    }
  }

  /** `filteredTemplates`. */
  function FilteredTemplates(cat: Category, searchQuery: string, groups: seq<TemplateGroup>, favs: seq<Template>): (r: seq<Template>)
    ensures IsSubsequence(r, CategorySource(cat, groups, favs))
    ensures forall t :: t in r ==> t in favs || t in AllTemplates(groups)
  {
    ApplyQuery(CategorySource(cat, groups, favs), searchQuery)
  }

  /** An empty or whitespace-only query returns the source list unchanged. */
  lemma BlankQueryKeepsSource(source: seq<Template>, searchQuery: string)
    requires forall i :: 0 <= i < |searchQuery| ==> IsWhitespace(searchQuery[i])
    ensures ApplyQuery(source, searchQuery) == source
  {
  }

  /**
   * A query with some non-whitespace keeps, in order, exactly the templates
   * whose lowered name contains the trimmed, lowered query; nameless ones go.
   */
  lemma QueryFilters(source: seq<Template>, searchQuery: string)
    requires exists i :: 0 <= i < |searchQuery| && !IsWhitespace(searchQuery[i])
    ensures var r := ApplyQuery(source, searchQuery);
            var q := Lower(Trim(searchQuery));
            && IsSubsequence(r, source)
            && (forall t :: t in r <==> t in source && t.name.Some? && Contains(Lower(t.name.value), q))
            && (forall t :: multiset(r)[t]
                             == if t.name.Some? && Contains(Lower(t.name.value), q) then multiset(source)[t] else 0)
            && (forall t :: t in source && t.name.None? ==> t !in r)
  {
  }

  /** Queries that differ only in letter case give the same result. */
  lemma QueryIgnoresCase(source: seq<Template>, q1: string, q2: string)
    requires SameUpToCase(q1, q2)
    ensures ApplyQuery(source, q1) == ApplyQuery(source, q2)
  {
    NormalizedIgnoresCase(q1, q2);
  }

  lemma {:induction false} KeepMatchingAllMatch(source: seq<Template>, q: string)
    requires forall t :: t in source ==> Matches(t, q)
    ensures KeepMatching(source, q) == source
  {
    if source != [] {
      assert source[0] in source;
      assert forall t :: t in source[1..] ==> t in source;
      KeepMatchingAllMatch(source[1..], q);
    }
  }

  /** Searching the search result again with the same query changes nothing. */
  lemma QueryIdempotent(source: seq<Template>, searchQuery: string)
    ensures ApplyQuery(ApplyQuery(source, searchQuery), searchQuery) == ApplyQuery(source, searchQuery)
  {
    var q := Lower(Trim(searchQuery));
    if q != "" {
      KeepMatchingAllMatch(KeepMatching(source, q), q);
    }
  }

  lemma {:induction false} CountFromIsLength(acc: nat, groups: seq<TemplateGroup>)
    requires forall k :: 0 <= k < |groups| ==> groups[k].templates.Some?
    ensures TemplateData.CountFrom(acc, groups) == acc + |AllTemplates(groups)|
    decreases groups
  {
    if groups != [] {
      CountFromIsLength(acc + |groups[0].templates.value|, groups[1..]);
    }
  }

  /** When every group has a list, `allTemplates` has `getTotalTemplateCount()` entries. */
  lemma AllTemplatesCount(groups: seq<TemplateGroup>)
    requires forall k :: 0 <= k < |groups| ==> groups[k].templates.Some?
    ensures |AllTemplates(groups)| == TemplateData.TotalTemplateCount(groups)
  {
    CountFromIsLength(0, groups);
  }
}

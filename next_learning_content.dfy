/**
 * The recommendation list: items kept by a content-type tab and a
 * learning-style filter, then ordered by the chosen sort.
 */
module NextLearningContent {
  import opened Opt
  import opened Text
  import opened Seqs
  import opened Sorting

  /** A recommended piece of content; `kind` is the item's `type`. */
  datatype Recommendation = Recommendation(
    id: string, title: string, kind: string, difficulty: string, estimatedTime: string,
    popularity: int, relevance: int, matchedLearningStyle: Option<string>, completionRate: Option<int>)

  /** The three selections of the view: content tab, sort order and learning-style filter. */
  datatype ViewState = ViewState(activeTab: string, sortBy: string, styleFilter: string)

  const InitialView := ViewState("all", "relevance", "all")

  /**
   * The content-type test: "all" keeps everything, "quizzes" also keeps the
   * items of type "quiz", and every tab keeps the items whose type is the tab.
   */
  predicate PassesTab(tab: string, item: Recommendation)
  {
    !(tab != "all" && item.kind != tab && !(tab == "quizzes" && item.kind == "quiz"))
  }

  /** The learning-style test: "all", or an item matched to exactly that style. */
  predicate PassesStyle(filter: string, item: Recommendation)
  {
    !(filter != "all" && item.matchedLearningStyle != Some(filter))
  }

  lemma TabCases(tab: string, item: Recommendation)
    ensures tab == "all" ==> PassesTab(tab, item)
    ensures tab == "quizzes" ==> (PassesTab(tab, item) <==> item.kind == "quiz" || item.kind == "quizzes")
    ensures tab != "all" && tab != "quizzes" ==> (PassesTab(tab, item) <==> item.kind == tab)
  {
  }

  lemma StyleCases(filter: string, item: Recommendation)
    ensures filter == "all" ==> PassesStyle(filter, item)
    ensures filter != "all" ==> (PassesStyle(filter, item) <==>
                                 item.matchedLearningStyle.Some? && item.matchedLearningStyle.value == filter)
  {
  }

  /** The integer prefix of an estimated time such as "2.5 hours" (no prefix counts as 0). */
  function Hours(item: Recommendation): int
  {
    ParseIntPrefix(item.estimatedTime).GetOr(0)
  }

  /**
   * The key the comparator sorts by: larger relevance, popularity or
   * completion rate first, shorter or longer time first; any other sort
   * order compares every pair as equal.
   */
  function SortKey(sortBy: string, item: Recommendation): Key
  {
    if sortBy == "relevance" then Key(-item.relevance, 0)
    else if sortBy == "popularity" then Key(-item.popularity, 0)
    else if sortBy == "completion" then Key(-item.completionRate.GetOr(0), 0)
    else if sortBy == "time-asc" then Key(Hours(item), 0)
    else if sortBy == "time-desc" then Key(-Hours(item), 0)
    else Key(0, 0)
  }

  predicate Passes(v: ViewState, item: Recommendation)
  {
    PassesTab(v.activeTab, item) && PassesStyle(v.styleFilter, item)
  }

  /** `filteredRecommendations`: the items passing both tests, in input order, then sorted. */
  function FilteredRecommendations(recs: seq<Recommendation>, v: ViewState): (r: seq<Recommendation>)
    ensures multiset(r) == multiset(Filter(recs, item => Passes(v, item)))
    ensures SortedBy(r, item => SortKey(v.sortBy, item))
  {
    SortBy(Filter(recs, item => Passes(v, item)), item => SortKey(v.sortBy, item))
  }

  /** Every listed item is a recommendation passing both tests, and every passing one is listed. */
  lemma FilteredMembers(recs: seq<Recommendation>, v: ViewState)
    ensures var r := FilteredRecommendations(recs, v);
      (forall i :: 0 <= i < |r| ==> r[i] in recs && Passes(v, r[i]))
      && (forall i :: 0 <= i < |recs| && Passes(v, recs[i]) ==> recs[i] in r)
  {
    var kept := Filter(recs, item => Passes(v, item));
    var r := FilteredRecommendations(recs, v);
    forall i | 0 <= i < |r|
      ensures r[i] in recs && Passes(v, r[i])
    {
      assert r[i] in multiset(r);
      assert r[i] in multiset(kept);
    }
    forall i | 0 <= i < |recs| && Passes(v, recs[i])
      ensures recs[i] in r
    {
      assert recs[i] in kept;
      assert recs[i] in multiset(kept);
      assert recs[i] in multiset(r);
    }
  }

  /** Each recommendation appears in the list as often as in the input if it passes, else never. */
  lemma FilteredCount(recs: seq<Recommendation>, v: ViewState, x: Recommendation)
    ensures multiset(FilteredRecommendations(recs, v))[x] == if Passes(v, x) then multiset(recs)[x] else 0
  {
    FilterMultiset(recs, item => Passes(v, item), x);
  }

  /** The three descending sorts put larger values first. */
  lemma DescendingSorts(recs: seq<Recommendation>, v: ViewState)
    ensures var r := FilteredRecommendations(recs, v);
      (v.sortBy == "relevance" ==> forall i, j :: 0 <= i < j < |r| ==> r[i].relevance >= r[j].relevance)
      && (v.sortBy == "popularity" ==> forall i, j :: 0 <= i < j < |r| ==> r[i].popularity >= r[j].popularity)
      && (v.sortBy == "completion" ==>
            forall i, j :: 0 <= i < j < |r| ==> r[i].completionRate.GetOr(0) >= r[j].completionRate.GetOr(0))
  {
    var r := FilteredRecommendations(recs, v);
    assert forall i, j :: 0 <= i < j < |r| ==> KeyLe(SortKey(v.sortBy, r[i]), SortKey(v.sortBy, r[j]));
  }

  /** The time sorts order by the integer prefix of the estimated time. */
  lemma TimeSorts(recs: seq<Recommendation>, v: ViewState)
    ensures var r := FilteredRecommendations(recs, v);
      (v.sortBy == "time-asc" ==> forall i, j :: 0 <= i < j < |r| ==> Hours(r[i]) <= Hours(r[j]))
      && (v.sortBy == "time-desc" ==> forall i, j :: 0 <= i < j < |r| ==> Hours(r[i]) >= Hours(r[j]))
  {
    var r := FilteredRecommendations(recs, v);
    if v.sortBy == "time-asc" {
      forall i, j | 0 <= i < j < |r|
        ensures Hours(r[i]) <= Hours(r[j])
      {
        assert KeyLe(SortKey(v.sortBy, r[i]), SortKey(v.sortBy, r[j]));
      }
    } else if v.sortBy == "time-desc" {
      forall i, j | 0 <= i < j < |r|
        ensures Hours(r[i]) >= Hours(r[j])
      {
        assert KeyLe(SortKey(v.sortBy, r[i]), SortKey(v.sortBy, r[j]));
      }
    }
  }

  /** "2.5 hours" and the like count as their whole-number prefix. */
  lemma HoursOfNumeral(item: Recommendation, n: nat, rest: string)
    requires rest == [] || !IsDigit(rest[0])
    requires n == 0 && rest != [] ==> rest[0] != 'x' && rest[0] != 'X'
    requires item.estimatedTime == NatToString(n) + rest
    ensures Hours(item) == n
  {
    ParseIntOfNumeralWithSuffix(n, rest);
  }

  /** An unknown sort order keeps the filtered items in their input order. */
  lemma UnknownSortKeepsOrder(recs: seq<Recommendation>, v: ViewState)
    requires v.sortBy !in {"relevance", "popularity", "completion", "time-asc", "time-desc"}
    ensures FilteredRecommendations(recs, v) == Filter(recs, item => Passes(v, item))
  {
    ConstantKeyIdentity(Filter(recs, item => Passes(v, item)), item => SortKey(v.sortBy, item));
  }

  /** Under "relevance" the comparator ties equal relevance, so such items keep their input order. */
  lemma EqualRelevanceKeepsOrder(recs: seq<Recommendation>, v: ViewState, relevance: int)
    requires v.sortBy == "relevance"
    ensures Filter(FilteredRecommendations(recs, v), (item: Recommendation) => item.relevance == relevance)
            == Filter(Filter(recs, item => Passes(v, item)), (item: Recommendation) => item.relevance == relevance)
  {
    var key := item => SortKey(v.sortBy, item);
    SortByStableFor(Filter(recs, item => Passes(v, item)), key,
                    (item: Recommendation) => item.relevance == relevance, Key(-relevance, 0));
  }

  /** "Reset Filters": tab and style back to "all", the sort order kept. */
  function ResetFilters(v: ViewState): (r: ViewState)
    ensures r.activeTab == "all" && r.styleFilter == "all" && r.sortBy == v.sortBy
  {
    v.(styleFilter := "all", activeTab := "all")
  }

  /** After a reset every recommendation is listed again, as often as in the input. */
  lemma ResetShowsEverything(recs: seq<Recommendation>, v: ViewState)
    ensures multiset(FilteredRecommendations(recs, ResetFilters(v))) == multiset(recs)
  {
    var w := ResetFilters(v);
    FilterKeepsAll(recs, item => Passes(w, item));
  }
}

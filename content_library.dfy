/**
 * The content library list: a case-insensitive title search, a content-type
 * tab and a sort by creation date, title or time of last study.
 */
module ContentLibrary {
  import opened Opt
  import opened Text
  import opened Seqs
  import opened Sorting

  /** A stored content set; `createdAt` is the time its "YYYY-MM-DD" text parses to. */
  datatype ContentSet = ContentSet(
    id: string, title: string, createdAt: int, contentType: string, itemCount: int,
    lastStudied: Option<string>)

  /** The search box, the tab and the sort select. */
  datatype ViewState = ViewState(searchQuery: string, activeTab: string, sortBy: string)

  const InitialView := ViewState("", "all", "newest")

  /** The search test: an empty query keeps every set, otherwise the title must contain it, ignoring case. */
  predicate MatchesSearch(query: string, c: ContentSet)
  {
    !(query != "" && !Contains(Lower(c.title), Lower(query)))
  }

  /** The tab test: "all", or a tab naming the set's type ("quizzes" for type "quiz"). */
  predicate PassesTab(tab: string, c: ContentSet)
  {
    if tab == "all" then true
    else if tab == "flashcards" && c.contentType == "flashcards" then true
    else if tab == "notes" && c.contentType == "notes" then true
    else if tab == "quizzes" && c.contentType == "quiz" then true
    else false
  }

  lemma SearchCases(query: string, c: ContentSet)
    ensures query == "" ==> MatchesSearch(query, c)
    ensures query != "" ==> (MatchesSearch(query, c) <==> Contains(Lower(c.title), Lower(query)))
  {
  }

  lemma TabCases(tab: string, c: ContentSet)
    ensures tab == "all" ==> PassesTab(tab, c)
    ensures tab == "flashcards" ==> (PassesTab(tab, c) <==> c.contentType == "flashcards")
    ensures tab == "notes" ==> (PassesTab(tab, c) <==> c.contentType == "notes")
    ensures tab == "quizzes" ==> (PassesTab(tab, c) <==> c.contentType == "quiz")
    ensures tab !in {"all", "flashcards", "notes", "quizzes"} ==> !PassesTab(tab, c)
  {
  }

  /** A set counts as studied when `lastStudied` is present and not the empty (falsy) text. */
  predicate Studied(c: ContentSet)
  {
    c.lastStudied.Some? && c.lastStudied.value != ""
  }

  /**
   * The comparator as a key. `rank` is the collation order `localeCompare`
   * follows. The recently-studied order puts unstudied sets last, equal
   * among themselves, and orders the others by their `lastStudied` text.
   */
  function SortKey(rank: string -> int, sortBy: string, c: ContentSet): Key
  {
    if sortBy == "newest" then Key(-c.createdAt, 0)
    else if sortBy == "oldest" then Key(c.createdAt, 0)
    else if sortBy == "title-asc" then Key(rank(c.title), 0)
    else if sortBy == "title-desc" then Key(-rank(c.title), 0)
    else if sortBy == "recently-studied" then
      (if Studied(c) then Key(0, rank(c.lastStudied.value)) else Key(1, 0))
    else Key(0, 0)
  }

  predicate Passes(v: ViewState, c: ContentSet)
  {
    MatchesSearch(v.searchQuery, c) && PassesTab(v.activeTab, c)
  }

  /** `filteredContent`: the sets passing search and tab, in input order, then sorted. */
  function FilteredContent(sets: seq<ContentSet>, v: ViewState, rank: string -> int): (r: seq<ContentSet>)
    ensures multiset(r) == multiset(Filter(sets, c => Passes(v, c)))
    ensures SortedBy(r, c => SortKey(rank, v.sortBy, c))
  {
    SortBy(Filter(sets, c => Passes(v, c)), c => SortKey(rank, v.sortBy, c))
  }

  /** Every listed set passes search and tab, and every passing set is listed. */
  lemma FilteredMembers(sets: seq<ContentSet>, v: ViewState, rank: string -> int)
    ensures var r := FilteredContent(sets, v, rank);
      (forall i :: 0 <= i < |r| ==> r[i] in sets && Passes(v, r[i]))
      && (forall i :: 0 <= i < |sets| && Passes(v, sets[i]) ==> sets[i] in r)
  {
    var kept := Filter(sets, c => Passes(v, c));
    var r := FilteredContent(sets, v, rank);
    forall i | 0 <= i < |r|
      ensures r[i] in sets && Passes(v, r[i])
    {
      assert r[i] in multiset(r);
      assert r[i] in multiset(kept);
    }
    forall i | 0 <= i < |sets| && Passes(v, sets[i])
      ensures sets[i] in r
    {
      assert sets[i] in kept;
      assert sets[i] in multiset(kept);
      assert sets[i] in multiset(r);
    }
  }

  /** "newest" lists later creation days first, "oldest" earlier ones first. */
  lemma DateSorts(sets: seq<ContentSet>, v: ViewState, rank: string -> int)
    ensures var r := FilteredContent(sets, v, rank);
      (v.sortBy == "newest" ==> forall i, j :: 0 <= i < j < |r| ==> r[i].createdAt >= r[j].createdAt)
      && (v.sortBy == "oldest" ==> forall i, j :: 0 <= i < j < |r| ==> r[i].createdAt <= r[j].createdAt)
  {
    var r := FilteredContent(sets, v, rank);
    if v.sortBy == "newest" {
      forall i, j | 0 <= i < j < |r|
        ensures r[i].createdAt >= r[j].createdAt
      {
        assert KeyLe(SortKey(rank, v.sortBy, r[i]), SortKey(rank, v.sortBy, r[j]));
      }
    } else if v.sortBy == "oldest" {
      forall i, j | 0 <= i < j < |r|
        ensures r[i].createdAt <= r[j].createdAt
      {
        assert KeyLe(SortKey(rank, v.sortBy, r[i]), SortKey(rank, v.sortBy, r[j]));
      }
    }
  }

  /** The title sorts follow the collation order, ascending or descending. */
  lemma TitleSorts(sets: seq<ContentSet>, v: ViewState, rank: string -> int)
    ensures var r := FilteredContent(sets, v, rank);
      (v.sortBy == "title-asc" ==> forall i, j :: 0 <= i < j < |r| ==> rank(r[i].title) <= rank(r[j].title))
      && (v.sortBy == "title-desc" ==> forall i, j :: 0 <= i < j < |r| ==> rank(r[i].title) >= rank(r[j].title))
  {
    var r := FilteredContent(sets, v, rank);
    if v.sortBy == "title-asc" {
      forall i, j | 0 <= i < j < |r|
        ensures rank(r[i].title) <= rank(r[j].title)
      {
        assert KeyLe(SortKey(rank, v.sortBy, r[i]), SortKey(rank, v.sortBy, r[j]));
      }
    } else if v.sortBy == "title-desc" {
      forall i, j | 0 <= i < j < |r|
        ensures rank(r[i].title) >= rank(r[j].title)
      {
        assert KeyLe(SortKey(rank, v.sortBy, r[i]), SortKey(rank, v.sortBy, r[j]));
      }
    }
  }

  /**
   * "recently-studied" puts every unstudied set after every studied one,
   * and orders the studied ones by their `lastStudied` text.
   */
  lemma RecentlyStudiedSort(sets: seq<ContentSet>, v: ViewState, rank: string -> int)
    requires v.sortBy == "recently-studied"
    ensures var r := FilteredContent(sets, v, rank);
      (forall i, j :: 0 <= i < j < |r| && Studied(r[j]) ==> Studied(r[i]))
      && (forall i, j :: 0 <= i < j < |r| && Studied(r[i]) && Studied(r[j]) ==>
            rank(r[i].lastStudied.value) <= rank(r[j].lastStudied.value))
  {
    var r := FilteredContent(sets, v, rank);
    forall i, j | 0 <= i < j < |r|
      ensures (Studied(r[j]) ==> Studied(r[i]))
        && (Studied(r[i]) && Studied(r[j]) ==> rank(r[i].lastStudied.value) <= rank(r[j].lastStudied.value))
    {
      StudiedKeyOrder(rank, r[i], r[j]);
    }
  }

  /** What one pair in recently-studied order says about the two sets. */
  lemma StudiedKeyOrder(rank: string -> int, a: ContentSet, b: ContentSet)
    requires KeyLe(SortKey(rank, "recently-studied", a), SortKey(rank, "recently-studied", b))
    ensures Studied(b) ==> Studied(a)
    ensures Studied(a) && Studied(b) ==> rank(a.lastStudied.value) <= rank(b.lastStudied.value)
  {
  }

  /** "recently-studied" ranks all unstudied sets alike, and the stable sort keeps them in input order. */
  lemma UnstudiedKeepOrder(sets: seq<ContentSet>, v: ViewState, rank: string -> int)
    requires v.sortBy == "recently-studied"
    ensures Filter(FilteredContent(sets, v, rank), c => !Studied(c))
            == Filter(Filter(sets, c => Passes(v, c)), c => !Studied(c))
  {
    var kept := Filter(sets, c => Passes(v, c));
    var key := c => SortKey(rank, v.sortBy, c);
    forall c
      ensures !Studied(c) == (key(c) == Key(1, 0))
    {
      UnstudiedKey(rank, c);
    }
    SortByStableFor(kept, key, c => !Studied(c), Key(1, 0));
  }

  /** The recently-studied key of a set is `Key(1, 0)` exactly when it was never studied. */
  lemma UnstudiedKey(rank: string -> int, c: ContentSet)
    ensures SortKey(rank, "recently-studied", c) == Key(1, 0) <==> !Studied(c)
  {
  }

  /** An unknown sort order keeps the filtered sets in their input order. */
  lemma UnknownSortKeepsOrder(sets: seq<ContentSet>, v: ViewState, rank: string -> int)
    requires v.sortBy !in {"newest", "oldest", "title-asc", "title-desc", "recently-studied"}
    ensures FilteredContent(sets, v, rank) == Filter(sets, c => Passes(v, c))
  {
    ConstantKeyIdentity(Filter(sets, c => Passes(v, c)), c => SortKey(rank, v.sortBy, c));
  }

  /** With no query and the "all" tab the library lists every set, as often as it is stored. */
  lemma NoFilterListsEverything(sets: seq<ContentSet>, v: ViewState, rank: string -> int)
    requires v.searchQuery == "" && v.activeTab == "all"
    ensures multiset(FilteredContent(sets, v, rank)) == multiset(sets)
  {
    FilterKeepsAll(sets, c => Passes(v, c));
  }
}

/** The cake status page (src/pages/CakeStatusPage.tsx): the entries whose
    serial number contains the search term, ignoring case, newest update
    first. The filter builds a new list and the sort reorders only that list,
    so the cached list is an input that nothing here changes. */
module CakeStatusView {
  import opened Types
  import opened Text
  import opened Panels

  predicate MatchesSearch(c: CakeStatus, term: string) {
    Includes(Lower(c.serialNumber), Lower(term))
  }

  /** `cakeStatus.filter(...)`: the matching entries, each as often as in the
      input and in input order. */
  function FilterBySerial(cakes: seq<CakeStatus>, term: string): (r: seq<CakeStatus>)
    ensures forall x :: multiset(r)[x] == if MatchesSearch(x, term) then multiset(cakes)[x] else 0
  {
    if cakes == [] then []
    else
      var rest := FilterBySerial(cakes[1..], term);
      assert cakes == [cakes[0]] + cakes[1..];
      if MatchesSearch(cakes[0], term) then [cakes[0]] + rest else rest
  }

  /** Non-increasing `lastUpdate`. */
  predicate NewestFirst(s: seq<CakeStatus>) {
    forall i, j :: 0 <= i < j < |s| ==> s[i].lastUpdate >= s[j].lastUpdate
  }

  /** Puts `x` before the first entry that is not newer than it. */
  function Insert(x: CakeStatus, s: seq<CakeStatus>): (r: seq<CakeStatus>)
    requires NewestFirst(s)
    ensures NewestFirst(r)
    ensures multiset(r) == multiset(s) + multiset{x}
    ensures |r| == |s| + 1 && (s == [] ==> r == [x]) && (s != [] ==> r[0] == x || r[0] == s[0])
  {
    if s == [] then [x]
    else if s[0].lastUpdate <= x.lastUpdate then [x] + s
    else
      var rest := Insert(x, s[1..]);
      assert s == [s[0]] + s[1..];
      assert s[0].lastUpdate >= rest[0].lastUpdate;
      var r := [s[0]] + rest;
      assert forall j :: 1 <= j < |r| ==> r[0].lastUpdate >= r[j].lastUpdate by {
        forall j | 1 <= j < |r| ensures r[0].lastUpdate >= r[j].lastUpdate {
          assert r[j] == rest[j - 1];
          if j > 1 {
            assert rest[0].lastUpdate >= rest[j - 1].lastUpdate;
          }
        }
      }
      r
  }

  /** The comparator sort `(a, b) => b.lastUpdate - a.lastUpdate`. */
  function SortNewestFirst(s: seq<CakeStatus>): (r: seq<CakeStatus>)
    ensures NewestFirst(r)
    ensures multiset(r) == multiset(s)
  {
    if s == [] then []
    else
      assert s == [s[0]] + s[1..];
      Insert(s[0], SortNewestFirst(s[1..]))
  }

  /** `filteredStatus`. */
  function FilteredStatus(cakes: seq<CakeStatus>, term: string): (r: seq<CakeStatus>)
    ensures NewestFirst(r)
    ensures forall x :: multiset(r)[x] == if MatchesSearch(x, term) then multiset(cakes)[x] else 0
    ensures forall x :: x in r <==> x in cakes && MatchesSearch(x, term)
  {
    var r := SortNewestFirst(FilterBySerial(cakes, term));
    assert forall x :: x in r <==> multiset(r)[x] > 0;
    r
  }

  /** An empty search keeps every entry, only reordered. */
  lemma EmptySearchKeepsAll(cakes: seq<CakeStatus>)
    ensures multiset(FilteredStatus(cakes, "")) == multiset(cakes)
  {
    forall x ensures MatchesSearch(x, "") {
      IncludesEmpty(Lower(x.serialNumber));
    }
  }

  /** The search sees serial numbers and terms only up to case. */
  lemma SearchIgnoresCase(cakes: seq<CakeStatus>, term: string)
    ensures FilteredStatus(cakes, Lower(term)) == FilteredStatus(cakes, term)
  {
    LowerIdempotent(term);
    assert forall x :: MatchesSearch(x, Lower(term)) == MatchesSearch(x, term);
    FilterIgnoresCase(cakes, term);
  }

  lemma {:induction false} FilterIgnoresCase(cakes: seq<CakeStatus>, term: string)
    requires forall x :: MatchesSearch(x, Lower(term)) == MatchesSearch(x, term)
    ensures FilterBySerial(cakes, Lower(term)) == FilterBySerial(cakes, term)
  {
    if cakes != [] {
      FilterIgnoresCase(cakes[1..], term);
    }
  }

  /** `renderContent`: the empty state depends on the cached list, not on the
      search, so a search that matches nothing shows an empty table. */
  function Render(cakes: seq<CakeStatus>, loading: bool, term: string): (r: Panel<seq<CakeStatus>>)
    ensures r.Skeleton? <==> loading && cakes == []
    ensures r.EmptyState? <==> !loading && cakes == []
    ensures r.Filled? <==> cakes != []
    ensures r.Filled? ==> NewestFirst(r.content) && forall x :: x in r.content <==> x in cakes && MatchesSearch(x, term)
    ensures r.Filled? ==> forall x :: multiset(r.content)[x] == if MatchesSearch(x, term) then multiset(cakes)[x] else 0
  {
    Choose(loading, |cakes| == 0, FilteredStatus(cakes, term))
  }
}

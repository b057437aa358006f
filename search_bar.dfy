/**
 * The SearchBar component: the guard in front of `onSearch`, the
 * recent-search list (most recent first, at most five, no two entries equal
 * up to letter case) and the handlers that update the component state.
 */
module SearchBar {
  import opened Options
  import opened Text

  /** How many recent searches the list keeps (`.slice(0, 5)`). */
  const MaxRecent: nat := 5

  /** `a` is `b` with some entries left out, the rest in their original order. */
  predicate IsSubsequence<T(==)>(a: seq<T>, b: seq<T>)
    decreases |b|
  {
    if a == [] then true
    else if b == [] then false
    else if a[0] == b[0] then IsSubsequence(a[1..], b[1..])
    else IsSubsequence(a, b[1..])
  }

  lemma {:induction false} SubsequencePrefix<T>(a: seq<T>, b: seq<T>, n: nat)
    requires IsSubsequence(a, b) && n <= |a|
    ensures IsSubsequence(a[..n], b)
    decreases |b|
  {
    if n > 0 {
      if a[0] == b[0] {
        SubsequencePrefix(a[1..], b[1..], n - 1);
        assert a[..n][1..] == a[1..][..n - 1];
      } else {
        SubsequencePrefix(a, b[1..], n);
      }
    }
  }

  /** No two entries are equal once lower-cased. */
  ghost predicate DistinctIgnoringCase(xs: seq<string>) {
    forall i, j :: 0 <= i < j < |xs| ==> ToLower(xs[i]) != ToLower(xs[j])
  }

  /**
   * `recentSearches.filter(s => s.toLowerCase() !== key)`: the entries that do
   * not match `key` up to letter case, in their original order.
   */
  function WithoutMatches(xs: seq<string>, key: string): (r: seq<string>)
    ensures |r| <= |xs|
    ensures forall s :: s in r <==> s in xs && ToLower(s) != key
    ensures IsSubsequence(r, xs)
  {
    if xs == [] then []
    else
      var rest := WithoutMatches(xs[1..], key);
      if ToLower(xs[0]) != key then
        assert ([xs[0]] + rest)[1..] == rest;
        [xs[0]] + rest
      else
        rest
  }

  /**
   * Filtering keeps every copy of an entry that does not match and drops
   * every copy of one that does, so repeated entries keep their number.
   */
  lemma {:induction false} WithoutMatchesCounts(xs: seq<string>, key: string)
    ensures forall s :: multiset(WithoutMatches(xs, key))[s] == if ToLower(s) != key then multiset(xs)[s] else 0
  {
    if xs != [] {
      WithoutMatchesCounts(xs[1..], key);
      assert xs == [xs[0]] + xs[1..];
    }
  }

  /** Filtering out a key nothing matches changes nothing. */
  lemma {:induction false} WithoutMatchesNone(xs: seq<string>, key: string)
    requires forall s :: s in xs ==> ToLower(s) != key
    ensures WithoutMatches(xs, key) == xs
  {
    if xs != [] {
      WithoutMatchesNone(xs[1..], key);
    }
  }

  /** In a list free of duplicates, no later entry matches the first one. */
  lemma HeadUnmatched(xs: seq<string>)
    requires xs != [] && DistinctIgnoringCase(xs)
    ensures forall s :: s in xs[1..] ==> ToLower(s) != ToLower(xs[0])
  {
    forall s | s in xs[1..] ensures ToLower(s) != ToLower(xs[0]) {
      var k :| 0 <= k < |xs[1..]| && xs[1..][k] == s;
      assert xs[k + 1] == s;
    }
  }

  /** Filtering keeps a list free of case-insensitive duplicates. */
  lemma {:induction false} WithoutMatchesDistinct(xs: seq<string>, key: string)
    requires DistinctIgnoringCase(xs)
    ensures DistinctIgnoringCase(WithoutMatches(xs, key))
  {
    if xs != [] {
      var rest := WithoutMatches(xs[1..], key);
      WithoutMatchesDistinct(xs[1..], key);
      if ToLower(xs[0]) != key {
        HeadUnmatched(xs);
        var r := [xs[0]] + rest;
        forall i, j | 0 <= i < j < |r| ensures ToLower(r[i]) != ToLower(r[j]) {
          assert r[j] == rest[j - 1];
          if i > 0 {
            assert r[i] == rest[i - 1];
          }
        }
      }
    }
  }

  /**
   * The recent-search update of `handleSearch` and `handleSuggestionClick`:
   * `entry` goes first, older entries equal to it up to letter case are
   * dropped, and the list is cut to five.
   */
  function AddRecent(recent: seq<string>, entry: string): (r: seq<string>)
    ensures 1 <= |r| <= MaxRecent && r[0] == entry
    ensures |r| <= 1 + |WithoutMatches(recent, ToLower(entry))|
    ensures forall i :: 1 <= i < |r| ==> ToLower(r[i]) != ToLower(entry)
    ensures r[1..] == WithoutMatches(recent, ToLower(entry))[..|r| - 1]
    ensures |r| == MaxRecent || r[1..] == WithoutMatches(recent, ToLower(entry))
    ensures IsSubsequence(r[1..], recent)
  {
    var rest := WithoutMatches(recent, ToLower(entry));
    var all := [entry] + rest;
    var r := if |all| <= MaxRecent then all else all[..MaxRecent];
    assert r[1..] == rest[..|r| - 1];
    assert forall i :: 1 <= i < |r| ==> r[i] in rest;
    SubsequencePrefix(rest, recent, |r| - 1);
    r
  }

  /** Recording the same search twice in a row is the same as recording it once. */
  lemma AddRecentIdempotent(recent: seq<string>, entry: string)
    ensures AddRecent(AddRecent(recent, entry), entry) == AddRecent(recent, entry)
  {
    var once := AddRecent(recent, entry);
    var key := ToLower(entry);
    assert once == [entry] + once[1..];
    WithoutMatchesNone(once[1..], key);
    assert WithoutMatches(once, key) == WithoutMatches(once[1..], key);
  }

  /** A list free of case-insensitive duplicates stays so after an update. */
  lemma AddRecentKeepsDistinct(recent: seq<string>, entry: string)
    requires DistinctIgnoringCase(recent)
    ensures DistinctIgnoringCase(AddRecent(recent, entry))
  {
    var rest := WithoutMatches(recent, ToLower(entry));
    WithoutMatchesDistinct(recent, ToLower(entry));
    var r := AddRecent(recent, entry);
    forall i, j | 0 <= i < j < |r| ensures ToLower(r[i]) != ToLower(r[j]) {
      if i > 0 {
        assert r[i] == rest[i - 1] && r[j] == rest[j - 1];
      }
    }
  }

  /**
   * `triggerSearch(searchCity)`: the explicit term when it is non-empty,
   * otherwise the input's `city`; `onSearch` receives it trimmed, and only
   * when something is left after trimming.
   */
  function TriggerSearch(term: string, city: string): (q: Option<string>)
    ensures var chosen := if term != "" then term else city;
            && (q.Some? <==> !IsBlank(chosen))
            && (q.Some? ==> && q.value == Trim(chosen)
                            && !IsSpace(q.value[0]) && !IsSpace(q.value[|q.value| - 1]))
  {
    var chosen := if term != "" then term else city;
    if Trim(chosen) != "" then Some(Trim(chosen)) else None
  }

  /** The keys `handleKeyPress` reacts to. */
  datatype Key = Enter | Escape | OtherKey

  /** The component state the handlers change. */
  class SearchBox {
    var city: string              // the input's value (owned by the parent, changed via setCity)
    var recent: seq<string>       // recentSearches
    var showSuggestions: bool

    /** Mounting: the recent list is whatever storage held (`saved`). */
    constructor(city: string, saved: seq<string>)
      ensures this.city == city && recent == saved && !showSuggestions
    {
      this.city := city;
      recent := saved;
      showSuggestions := false;
    }

    /**
     * The search button's enable guard (`disabled={loading || !city.trim()}`):
     * enabled when not loading and the input holds a non-space character.
     */
    function SearchEnabled(loading: bool): (enabled: bool)
      reads this
      ensures enabled <==> !loading && exists i :: 0 <= i < |city| && !IsSpace(city[i])
    {
      !(loading || Trim(city) == "")
    }

    /** `handleSearch`: record and run the trimmed input, unless it is blank. */
    method HandleSearch() returns (query: Option<string>)
      modifies this`recent, this`showSuggestions
      ensures IsBlank(city) ==>
        query == None && recent == old(recent) && showSuggestions == old(showSuggestions)
      ensures !IsBlank(city) ==>
        && query == Some(Trim(city))
        && recent == AddRecent(old(recent), Trim(city))
        && !showSuggestions
    {
      query := None;
      var trimmed := Trim(city);
      assert trimmed == "" <==> IsBlank(city);
      if trimmed != "" {
        recent := AddRecent(recent, trimmed);
        query := Some(trimmed);   // triggerSearch(city): the term is the input itself
        showSuggestions := false;
      }
    }

    /**
     * `handleSuggestionClick`: the input takes the clicked entry, which is
     * recorded as it is (not trimmed) and searched. `triggerSearch` still sees
     * the input's previous value, which only matters for an empty entry.
     */
    method HandleSuggestionClick(selected: string) returns (query: Option<string>)
      modifies this
      ensures city == selected
      ensures recent == AddRecent(old(recent), selected)
      ensures !showSuggestions
      ensures query == TriggerSearch(selected, old(city))
      ensures selected != "" ==> (query.Some? <==> !IsBlank(selected))
    {
      var previous := city;
      city := selected;
      recent := AddRecent(recent, selected);
      showSuggestions := false;
      query := TriggerSearch(selected, previous);
    }

    /** `handleKeyPress`: Enter searches, Escape closes the suggestions. */
    method HandleKeyPress(key: Key) returns (query: Option<string>)
      modifies this`recent, this`showSuggestions
      ensures key == Enter ==> query == (if IsBlank(city) then None else Some(Trim(city)))
      ensures key == Enter && !IsBlank(city) ==> recent == AddRecent(old(recent), Trim(city)) && !showSuggestions
      ensures key == Enter && IsBlank(city) ==> recent == old(recent) && showSuggestions == old(showSuggestions)
      ensures key != Enter ==> query == None && recent == old(recent)
      ensures key == Escape ==> !showSuggestions
      ensures key == OtherKey ==> showSuggestions == old(showSuggestions)
    {
      query := None;
      if key == Enter {
        query := HandleSearch();
      }
      if key == Escape {
        showSuggestions := false;
      }
    }

    /** `clearInput`. */
    method ClearInput()
      modifies this`city
      ensures city == ""
    {
      city := "";
    }

    /** `clearRecentSearches`. */
    method ClearRecentSearches()
      modifies this`recent
      ensures recent == []
    {
      recent := [];
    }
  }

  /**
   * When not loading, the search button is enabled exactly when pressing it
   * issues a search.
   */
  lemma EnabledIffSearchIssued(box: SearchBox)
    ensures box.SearchEnabled(false) <==> TriggerSearch(box.city, box.city).Some?
  {
  }
}

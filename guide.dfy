/** The constellation guide's list logic (Views/ConstellationGuideView.swift):
    the search-and-difficulty filter over the catalogue, sorted by display
    name, and the difficulty badge and label. */
module Guide {
  import opened Text
  import opened Seqs
  import Stars

  /** The search box passes a constellation when it is empty or occurs in
      the display name, ignoring case. */
  predicate MatchesSearch(c: Stars.ConstellationType, search: string) {
    search == [] || CaseInsensitiveContains(Stars.RawValue(c), search)
  }

  /** The difficulty picker passes a constellation when it is 0 ("All") or
      equals its tier. */
  predicate MatchesDifficulty(c: Stars.ConstellationType, difficulty: int) {
    difficulty == 0 || Stars.Difficulty(c) == difficulty
  }

  predicate Passes(c: Stars.ConstellationType, search: string, difficulty: int) {
    MatchesSearch(c, search) && MatchesDifficulty(c, difficulty)
  }

  type Key = Stars.ConstellationType -> string

  /** No two constellations share a key. */
  predicate Injective(key: Key) {
    forall a, b :: key(a) == key(b) ==> a == b
  }

  /** Display names identify constellations. */
  lemma RawValueIsInjective()
    ensures Injective(Stars.RawValue)
  {
    forall a, b | Stars.RawValue(a) == Stars.RawValue(b) ensures a == b {
      Stars.RawValueInjective(a, b);
    }
  }

  /** `a` sorts before `b` by key. */
  predicate Before(key: Key, a: Stars.ConstellationType, b: Stars.ConstellationType) {
    Less(key(a), key(b))
  }

  /** Each element sorts strictly before every later one. */
  predicate Ascending(key: Key, s: seq<Stars.ConstellationType>) {
    forall i, j :: 0 <= i < j < |s| ==> Before(key, s[i], s[j])
  }

  /** Distinct constellations are ordered one way or the other. */
  lemma BeforeTotal(key: Key, a: Stars.ConstellationType, b: Stars.ConstellationType)
    requires Injective(key) && a != b
    ensures Before(key, a, b) != Before(key, b, a)
  {
    LessTotal(key(a), key(b));
  }

  /** `allCases.filter { ... }`, on the list `cs`. */
  function FilterCases(cs: seq<Stars.ConstellationType>, search: string, difficulty: int): (r: seq<Stars.ConstellationType>)
    ensures |r| <= |cs|
    ensures forall c :: c in r <==> c in cs && Passes(c, search, difficulty)
    ensures search == [] && difficulty == 0 ==> r == cs
  {
    if cs == [] then []
    else if Passes(cs[0], search, difficulty) then [cs[0]] + FilterCases(cs[1..], search, difficulty)
    else FilterCases(cs[1..], search, difficulty)
  }

  /** Filtering keeps the elements of a repeat-free list apart. */
  lemma {:induction false} FilterDistinct(cs: seq<Stars.ConstellationType>, search: string, difficulty: int)
    requires Distinct(cs)
    ensures Distinct(FilterCases(cs, search, difficulty))
  {
    if cs != [] {
      DistinctTail(cs);
      FilterDistinct(cs[1..], search, difficulty);
      if Passes(cs[0], search, difficulty) {
        DistinctCons(cs[0], FilterCases(cs[1..], search, difficulty));
      }
    }
  }

  /** Dropping the head of a repeat-free list leaves a repeat-free list
      without it. */
  lemma DistinctTail(cs: seq<Stars.ConstellationType>)
    requires Distinct(cs) && cs != []
    ensures Distinct(cs[1..]) && cs[0] !in cs[1..]
  {
    var tail := cs[1..];
    forall i, j | 0 <= i < j < |tail| ensures tail[i] != tail[j] {
      assert tail[i] == cs[i + 1] && tail[j] == cs[j + 1];
    }
    forall k | 0 <= k < |tail| ensures tail[k] != cs[0] {
      assert tail[k] == cs[k + 1];
    }
  }

  /** A new head keeps a repeat-free list repeat-free. */
  lemma DistinctCons(x: Stars.ConstellationType, t: seq<Stars.ConstellationType>)
    requires Distinct(t) && x !in t
    ensures Distinct([x] + t)
  {
    var r := [x] + t;
    forall i, j | 0 <= i < j < |r| ensures r[i] != r[j] {
      if i == 0 {
        assert r[j] == t[j - 1] && t[j - 1] in t;
      } else {
        assert r[i] == t[i - 1] && r[j] == t[j - 1];
      }
    }
  }


  /** Inserts `c` before the first element that sorts after it. */
  function InsertByKey(key: Key, c: Stars.ConstellationType, s: seq<Stars.ConstellationType>): (r: seq<Stars.ConstellationType>)
    ensures |r| == |s| + 1
    ensures forall x :: x in r <==> x in s || x == c
  {
    if s == [] then [c]
    else if Before(key, c, s[0]) then [c] + s
    else [s[0]] + InsertByKey(key, c, s[1..])
  }

  /** Inserting a new constellation into an ascending list keeps it
      ascending. */
  lemma {:induction false} InsertAscending(key: Key, c: Stars.ConstellationType, s: seq<Stars.ConstellationType>)
    requires Injective(key) && Ascending(key, s) && c !in s
    ensures Ascending(key, InsertByKey(key, c, s))
  {
    if s != [] {
      if Before(key, c, s[0]) {
        forall j | 0 < j < |s| ensures Before(key, c, s[j]) {
          LessTransitive(key(c), key(s[0]), key(s[j]));
        }
      } else {
        BeforeTotal(key, c, s[0]);
        InsertAscending(key, c, s[1..]);
        var t := InsertByKey(key, c, s[1..]);
        forall k | 0 <= k < |t| ensures Before(key, s[0], t[k]) {
          if t[k] != c {
            assert t[k] in s[1..];
            var j :| 0 <= j < |s| - 1 && s[1..][j] == t[k];
            assert s[j + 1] == t[k];
          }
        }
      }
    }
  }

  /** `sorted { key($0) < key($1) }` by insertion. The keys are distinct, so
      any correct sort yields this list. */
  function SortByKey(key: Key, s: seq<Stars.ConstellationType>): (r: seq<Stars.ConstellationType>)
    requires Injective(key)
    requires Distinct(s)
    ensures |r| == |s|
    ensures forall x :: x in r <==> x in s
    ensures Ascending(key, r)
  {
    if s == [] then []
    else
      var init := s[..|s| - 1];
      var sorted := SortByKey(key, init);
      assert s[|s| - 1] !in init;
      InsertAscending(key, s[|s| - 1], sorted);
      assert s == init + [s[|s| - 1]];
      InsertByKey(key, s[|s| - 1], sorted)
  }

  /** The members of `cs` that pass both filters, sorted by name. */
  function FilterAndSort(cs: seq<Stars.ConstellationType>, search: string, difficulty: int): (r: seq<Stars.ConstellationType>)
    requires Distinct(cs)
    ensures Ascending(Stars.RawValue, r)
    ensures forall c :: c in r <==> c in cs && Passes(c, search, difficulty)
    ensures Distinct(r)
    ensures search == [] && difficulty == 0 ==> |r| == |cs|
  {
    RawValueIsInjective();
    FilterDistinct(cs, search, difficulty);
    var r := SortByKey(Stars.RawValue, FilterCases(cs, search, difficulty));
    AscendingDistinct(Stars.RawValue, r);
    r
  }

  /** `filteredConstellations`: the constellations that pass both filters,
      each once, in strictly ascending name order. */
  function FilteredConstellations(search: string, difficulty: int): (r: seq<Stars.ConstellationType>)
    ensures Ascending(Stars.RawValue, r)
    ensures forall c :: c in r <==> Passes(c, search, difficulty)
    ensures Distinct(r)
    ensures search == [] && difficulty == 0 ==> |r| == 20
  {
    Stars.AllCasesEnumerates();
    FilterAndSort(Stars.AllCases(), search, difficulty)
  }

  /** A strictly ascending list has no repeats. */
  lemma AscendingDistinct(key: Key, s: seq<Stars.ConstellationType>)
    requires Ascending(key, s)
    ensures Distinct(s)
  {
    forall i, j | 0 <= i < j < |s| ensures s[i] != s[j] {
      LessIrreflexive(key(s[i]));
    }
  }

  /** `String(repeating: c, count: n)`. */
  function Repeat(c: char, n: nat): (r: string)
    ensures |r| == n
    ensures forall i :: 0 <= i < n ==> r[i] == c
  {
    seq(n, i => c)
  }

  /** `difficultyStars`: one filled star per tier, then hollow ones up to
      four. */
  function DifficultyStars(c: Stars.ConstellationType): (r: string)
    ensures |r| == 4
    ensures forall i :: 0 <= i < 4 ==> r[i] == if i < Stars.Difficulty(c) then '★' else '☆'
  {
    var d := Stars.Difficulty(c);
    Repeat('★', d) + Repeat('☆', 4 - d)
  }

  /** `difficultyText`. */
  function DifficultyText(d: int): (t: string)
    ensures d == 1 <==> t == "Easy to find"
    ensures d == 2 <==> t == "Moderate difficulty"
    ensures d == 3 <==> t == "Challenging"
    ensures d == 4 <==> t == "Expert level"
    ensures !(1 <= d <= 4) <==> t == "Unknown"
  {
    if d == 1 then "Easy to find"
    else if d == 2 then "Moderate difficulty"
    else if d == 3 then "Challenging"
    else if d == 4 then "Expert level"
    else "Unknown"
  }

  /** Every catalogue constellation gets a real label. */
  lemma CatalogueHasKnownLabels(c: Stars.ConstellationType)
    ensures DifficultyText(Stars.Difficulty(c)) != "Unknown"
  {
  }
}

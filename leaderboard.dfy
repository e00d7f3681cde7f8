/** The global and friends leaderboards (Services/LeaderboardService.swift).
    Both lists are kept ordered by non-increasing score; the global one holds
    at most 100 entries. Swift's `sort { $0.score > $1.score }` is modelled
    by a stable insertion sort (`SortDesc`). */
module Leaderboard {
  import opened Wrappers
  import opened Text

  /** `LeaderboardEntry` without its UUID and date. */
  datatype Entry = Entry(playerName: string, score: int, level: int, constellationsCompleted: int)

  /** The random values one generated entry draws. */
  datatype Draw = Draw(score: int, level: int, constellationsCompleted: int)

  /** The largest number of entries the global board keeps. */
  const Capacity: nat := 100

  /** Ordered by non-increasing score. */
  predicate SortedDesc(s: seq<Entry>) {
    forall i, j :: 0 <= i < j < |s| ==> s[i].score >= s[j].score
  }

  /** Inserts `e` after every entry whose score is at least its own. */
  function InsertByScore(e: Entry, s: seq<Entry>): (r: seq<Entry>)
    ensures |r| == |s| + 1
    ensures multiset(r) == multiset(s) + multiset{e}
  {
    if s == [] then [e]
    else if s[0].score >= e.score then
      assert s == [s[0]] + s[1..];
      [s[0]] + InsertByScore(e, s[1..])
    else [e] + s
  }

  /** Insertion keeps every score under a common bound. */
  lemma {:induction false} InsertBounded(e: Entry, s: seq<Entry>, bound: int)
    requires e.score <= bound
    requires forall k :: 0 <= k < |s| ==> s[k].score <= bound
    ensures forall k :: 0 <= k < |s| + 1 ==> InsertByScore(e, s)[k].score <= bound
  {
    if s != [] && s[0].score >= e.score {
      InsertBounded(e, s[1..], bound);
    }
  }

  /** Insertion into an ordered list leaves it ordered. */
  lemma {:induction false} InsertSorted(e: Entry, s: seq<Entry>)
    requires SortedDesc(s)
    ensures SortedDesc(InsertByScore(e, s))
  {
    if s != [] && s[0].score >= e.score {
      InsertSorted(e, s[1..]);
      InsertBounded(e, s[1..], s[0].score);
    }
  }

  /** The list sorted by non-increasing score, stably. */
  function SortDesc(s: seq<Entry>): (r: seq<Entry>)
    ensures |r| == |s|
    ensures multiset(r) == multiset(s)
    ensures SortedDesc(r)
  {
    if s == [] then []
    else
      assert s == s[..|s| - 1] + [s[|s| - 1]];
      InsertSorted(s[|s| - 1], SortDesc(s[..|s| - 1]));
      InsertByScore(s[|s| - 1], SortDesc(s[..|s| - 1]))
  }

  /** Inserting past a prefix of at-least-as-good entries appends. */
  lemma {:induction false} InsertAfterAll(e: Entry, s: seq<Entry>)
    requires forall k :: 0 <= k < |s| ==> s[k].score >= e.score
    ensures InsertByScore(e, s) == s + [e]
  {
    if s != [] {
      InsertAfterAll(e, s[1..]);
    }
  }

  /** Sorting a list that is already in order changes nothing. */
  lemma {:induction false} SortDescOfSorted(s: seq<Entry>)
    requires SortedDesc(s)
    ensures SortDesc(s) == s
  {
    if s != [] {
      var init := s[..|s| - 1];
      SortDescOfSorted(init);
      InsertAfterAll(s[|s| - 1], init);
      assert init + [s[|s| - 1]] == s;
    }
  }

  /** Appending to an ordered list and sorting inserts the new entry after
      every entry with an equal or higher score. */
  lemma AppendThenSort(s: seq<Entry>, e: Entry)
    requires SortedDesc(s)
    ensures SortDesc(s + [e]) == InsertByScore(e, s)
  {
    assert (s + [e])[..|s|] == s;
    SortDescOfSorted(s);
  }

  /** `Array(list.prefix(n))`. */
  function Take(s: seq<Entry>, n: nat): (r: seq<Entry>)
    ensures |r| == if n < |s| then n else |s|
    ensures r <= s
  {
    if n < |s| then s[..n] else s
  }

  /** The global board after `submitScore(entry)`: the entry appended, the
      list sorted by score and cut to the best `Capacity`. */
  function Submitted(board: seq<Entry>, entry: Entry): (r: seq<Entry>)
    ensures |r| == if |board| + 1 < Capacity then |board| + 1 else Capacity
    ensures SortedDesc(r)
    ensures multiset(r) <= multiset(board) + multiset{entry}
    ensures |board| < Capacity ==> multiset(r) == multiset(board) + multiset{entry}
  {
    var sorted := SortDesc(board + [entry]);
    TakeSorted(sorted, Capacity);
    var r := Take(sorted, Capacity);
    assert sorted == r + sorted[|r|..];
    r
  }

  /** A prefix of an ordered list is ordered. */
  lemma TakeSorted(s: seq<Entry>, n: nat)
    requires SortedDesc(s)
    ensures SortedDesc(Take(s, n))
  {
  }

  /** `firstIndex(where: { $0.score <= score })`. */
  function FirstAtMost(s: seq<Entry>, score: int): (r: Option<nat>)
    ensures r.Some? ==> r.value < |s| && s[r.value].score <= score
    ensures r.Some? ==> forall k :: 0 <= k < r.value ==> s[k].score > score
    ensures r.None? <==> forall k :: 0 <= k < |s| ==> s[k].score > score
  {
    if s == [] then None
    else if s[0].score <= score then Some(0)
    else
      match FirstAtMost(s[1..], score)
      case None => None
      case Some(i) => Some(i + 1)
  }

  /** The rank a score would take: one past the entries ahead of it. */
  function RankIn(s: seq<Entry>, score: int): (r: Option<int>)
    ensures r.Some? && 1 <= r.value <= |s| + 1
  {
    match FirstAtMost(s, score)
    case None => Some(|s| + 1)
    case Some(i) => Some(i + 1)
  }

  /** How many entries score strictly more than `score`. */
  function CountAbove(s: seq<Entry>, score: int): (n: nat)
    ensures n <= |s|
  {
    if s == [] then 0
    else (if s[0].score > score then 1 else 0) + CountAbove(s[1..], score)
  }

  /** On an ordered list, the entries ahead of the first one at or below
      `score` are exactly those above it, so the rank counts them. */
  lemma {:induction false} RankCountsHigherScores(s: seq<Entry>, score: int)
    requires SortedDesc(s)
    ensures RankIn(s, score) == Some(1 + CountAbove(s, score))
  {
    if s != [] {
      RankCountsHigherScores(s[1..], score);
      if s[0].score <= score {
        ZeroAbove(s, score);
      }
    }
  }

  /** The rank rule, for a board that may or may not be ordered. */
  lemma RankWhenSorted(s: seq<Entry>, score: int)
    ensures SortedDesc(s) ==> RankIn(s, score) == Some(1 + CountAbove(s, score))
  {
    if SortedDesc(s) {
      RankCountsHigherScores(s, score);
    }
  }

  lemma {:induction false} ZeroAbove(s: seq<Entry>, score: int)
    requires forall k :: 0 <= k < |s| ==> s[k].score <= score
    ensures CountAbove(s, score) == 0
  {
    if s != [] {
      ZeroAbove(s[1..], score);
    }
  }

  /** Removing an entry keeps an ordered list ordered. */
  lemma RemoveKeepsSorted(s: seq<Entry>, i: nat)
    requires SortedDesc(s) && i < |s|
    ensures SortedDesc(s[..i] + s[i + 1..])
  {
    var r := s[..i] + s[i + 1..];
    forall a, b | 0 <= a < b < |r| ensures r[a].score >= r[b].score {
      var a' := if a < i then a else a + 1;
      var b' := if b < i then b else b + 1;
      assert r[a] == s[a'] && r[b] == s[b'];
    }
  }

  /** `generateSampleData`'s twenty player names. */
  function SampleNames(): (r: seq<string>)
    ensures |r| == 20
  {
    ["StarGazer", "CosmicMaster", "NebulaNinja", "GalaxyGuardian", "AstroAce",
     "StellarSage", "OrionHunter", "CassiopeiaQueen", "DracoSlayer", "LyraLegend",
     "CygnusChampion", "AquilaAdept", "PerseusProdigy", "UrsaMajor", "VegaVirtuoso",
     "SiriusSeeker", "PolarisProud", "AndromedaAce", "CentaurusChief", "PhoenixFlyer"]
  }

  /** `generateSampleData`'s five friend names. */
  function FriendNames(): (r: seq<string>)
    ensures |r| == 5
  {
    ["Alex", "Sarah", "Mike", "Emma", "David"]
  }

  /** `generateRandomEntries`'s three name stems, each followed by a random
      number. */
  function RandomStems(): (r: seq<string>)
    ensures |r| == 3
  {
    ["StarSeeker", "CosmicRider", "GalaxyExplorer"]
  }

  /** One entry per name, in order, from the matching draw. */
  function Entries(names: seq<string>, draws: seq<Draw>): (r: seq<Entry>)
    requires |names| == |draws|
    ensures |r| == |names|
    ensures forall k :: 0 <= k < |r| ==>
      r[k] == Entry(names[k], draws[k].score, draws[k].level, draws[k].constellationsCompleted)
  {
    if names == [] then [] else
      [Entry(names[0], draws[0].score, draws[0].level, draws[0].constellationsCompleted)]
      + Entries(names[1..], draws[1..])
  }

  /** The stems with their random suffixes. */
  function SuffixedNames(stems: seq<string>, suffixes: seq<nat>): (r: seq<string>)
    requires |stems| == |suffixes|
    ensures |r| == |stems|
    ensures forall k :: 0 <= k < |r| ==> r[k] == stems[k] + NatToString(suffixes[k])
  {
    if stems == [] then []
    else [stems[0] + NatToString(suffixes[0])] + SuffixedNames(stems[1..], suffixes[1..])
  }

  class LeaderboardService {
    var globalLeaderboard: seq<Entry>
    var friendsLeaderboard: seq<Entry>
    var isLoading: bool

    /** Both boards in score order, the global one within capacity. */
    predicate Valid()
      reads this
    {
      SortedDesc(globalLeaderboard) && SortedDesc(friendsLeaderboard)
      && |globalLeaderboard| <= Capacity
    }

    /** `init`: with nothing stored, `generateSampleData` fills the global
        board with the twenty sample players and the friends board with the
        five sample friends, each sorted. The random scores, levels and
        completion counts are the draws. */
    constructor (globalDraws: seq<Draw>, friendDraws: seq<Draw>)
      requires |globalDraws| == 20 && |friendDraws| == 5
      ensures globalLeaderboard == SortDesc(Entries(SampleNames(), globalDraws))
      ensures friendsLeaderboard == SortDesc(Entries(FriendNames(), friendDraws))
      ensures !isLoading
      ensures Valid()
    {
      globalLeaderboard := SortDesc(Entries(SampleNames(), globalDraws));
      friendsLeaderboard := SortDesc(Entries(FriendNames(), friendDraws));
      isLoading := false;
    }

    /** `submitScore`: append, sort by score, keep the best 100. */
    method SubmitScore(entry: Entry)
      requires Valid()
      modifies this
      ensures Valid()
      ensures globalLeaderboard == Submitted(old(globalLeaderboard), entry)
      ensures globalLeaderboard == Take(InsertByScore(entry, old(globalLeaderboard)), Capacity)
      ensures |globalLeaderboard| == if |old(globalLeaderboard)| < Capacity then |old(globalLeaderboard)| + 1 else Capacity
      ensures friendsLeaderboard == old(friendsLeaderboard) && isLoading == old(isLoading)
    {
      AppendThenSort(globalLeaderboard, entry);
      var sorted := SortDesc(globalLeaderboard + [entry]);
      globalLeaderboard := sorted;
      if |globalLeaderboard| > Capacity {
        globalLeaderboard := globalLeaderboard[..Capacity];
      }
      TakeSorted(sorted, Capacity);
    }

    /** `addFriend`: a friend entry with the drawn score, level and count,
        inserted in score order. */
    method AddFriend(name: string, draw: Draw)
      requires Valid()
      modifies this
      ensures Valid()
      ensures friendsLeaderboard == SortDesc(old(friendsLeaderboard) + [Entry(name, draw.score, draw.level, draw.constellationsCompleted)])
      ensures friendsLeaderboard == InsertByScore(Entry(name, draw.score, draw.level, draw.constellationsCompleted), old(friendsLeaderboard))
      ensures |friendsLeaderboard| == |old(friendsLeaderboard)| + 1
      ensures globalLeaderboard == old(globalLeaderboard) && isLoading == old(isLoading)
    {
      var friendEntry := Entry(name, draw.score, draw.level, draw.constellationsCompleted);
      AppendThenSort(friendsLeaderboard, friendEntry);
      friendsLeaderboard := SortDesc(friendsLeaderboard + [friendEntry]);
    }

    /** `removeFriend(at:)`: drops the entry at `index` when there is one. A
        negative index traps in Swift, so callers pass a natural number. */
    method RemoveFriend(index: nat)
      requires Valid()
      modifies this
      ensures Valid()
      ensures index < |old(friendsLeaderboard)| ==>
        friendsLeaderboard == old(friendsLeaderboard)[..index] + old(friendsLeaderboard)[index + 1..]
      ensures index >= |old(friendsLeaderboard)| ==> friendsLeaderboard == old(friendsLeaderboard)
      ensures globalLeaderboard == old(globalLeaderboard) && isLoading == old(isLoading)
    {
      if index < |friendsLeaderboard| {
        RemoveKeepsSorted(friendsLeaderboard, index);
        friendsLeaderboard := friendsLeaderboard[..index] + friendsLeaderboard[index + 1..];
      }
    }

    /** `refreshLeaderboard`: loading starts; the boards change only when
        the delayed `FinishRefresh` fires. */
    method RefreshLeaderboard()
      requires Valid()
      modifies this
      ensures Valid() && isLoading
      ensures globalLeaderboard == old(globalLeaderboard) && friendsLeaderboard == old(friendsLeaderboard)
    {
      isLoading := true;
    }

    /** The closure `refreshLeaderboard` schedules one second later:
        `generateRandomEntries` adds three new players, re-sorts the board
        and cuts it back to 100; then loading ends. */
    method FinishRefresh(suffixes: seq<nat>, draws: seq<Draw>)
      requires Valid()
      requires |suffixes| == 3 && |draws| == 3
      modifies this
      ensures Valid()
      ensures globalLeaderboard == Take(SortDesc(old(globalLeaderboard)
        + Entries(SuffixedNames(RandomStems(), suffixes), draws)), Capacity)
      ensures |globalLeaderboard| == if |old(globalLeaderboard)| + 3 < Capacity then |old(globalLeaderboard)| + 3 else Capacity
      ensures friendsLeaderboard == old(friendsLeaderboard) && !isLoading
    {
      var added := Entries(SuffixedNames(RandomStems(), suffixes), draws);
      var sorted := SortDesc(globalLeaderboard + added);
      globalLeaderboard := sorted;
      if |globalLeaderboard| > Capacity {
        globalLeaderboard := globalLeaderboard[..Capacity];
      }
      TakeSorted(sorted, Capacity);
      isLoading := false;
    }

    /** `getPlayerRank`: never nil; one past the entries scoring above. */
    function GetPlayerRank(score: int): (r: Option<int>)
      reads this
      ensures r.Some? && 1 <= r.value <= |globalLeaderboard| + 1
      ensures SortedDesc(globalLeaderboard) ==> r == Some(1 + CountAbove(globalLeaderboard, score))
    {
      RankWhenSorted(globalLeaderboard, score);
      RankIn(globalLeaderboard, score)
    }

    /** `getFriendsRank`: the same rule on the friends board. */
    function GetFriendsRank(score: int): (r: Option<int>)
      reads this
      ensures r.Some? && 1 <= r.value <= |friendsLeaderboard| + 1
      ensures SortedDesc(friendsLeaderboard) ==> r == Some(1 + CountAbove(friendsLeaderboard, score))
    {
      RankWhenSorted(friendsLeaderboard, score);
      RankIn(friendsLeaderboard, score)
    }

    /** `getTopPlayers(count:)`: the first `count` entries, or all of them. */
    function GetTopPlayers(count: nat := 10): (r: seq<Entry>)
      reads this
      ensures |r| == if count < |globalLeaderboard| then count else |globalLeaderboard|
      ensures r <= globalLeaderboard
      ensures SortedDesc(globalLeaderboard) ==> SortedDesc(r)
    {
      Take(globalLeaderboard, count)
    }
  }
}

/** The game session engine (ViewModels/GameViewModel.swift).

    Time is counted in tenths of a second and the difficulty multiplier in
    halves, so all arithmetic is exact. The repeating 0.1 s timer becomes a
    `timerActive` flag and an explicit `Tick`; the delayed call to
    `nextLevel` after a completed level becomes a `pendingNextLevels` count
    and a `NextLevel` call. Random positions, brightness values, decoy
    constellations and the shuffle are passed in as a `Draws` value, and a
    star's UUID is a number drawn from the counter `nextId`. */
module Session {
  import opened Wrappers
  import Stars
  import Users
  import Progress
  import Leaderboard
  import GameScreen

  datatype GameState = Menu | Playing | Paused | GameOver | Completed | Tutorial

  /** `calculateScore(for:)` with the multiplier given in halves: the base of
      100 per star plus 50 per combo step is a multiple of 50, so the
      product with 1.5 is whole and the conversion to `Int` loses nothing. */
  function MatchScore(count: int, combo: int, halves: int): (r: int)
    ensures r * 2 == (count * 100 + combo * 50) * halves
    ensures count >= 3 && combo >= 0 && halves >= 2 ==> r >= 300
  {
    var base := count * 50 + combo * 25;
    assert (count * 100 + combo * 50) * halves == 2 * (base * halves);
    assert count >= 3 && combo >= 0 && halves >= 2 ==> base >= 150 && base * halves >= base * 2;
    (count * 100 + combo * 50) * halves / 2
  }

  /** `max(3, starsCount / 2)`: how many stars of the target constellation a
      field of `n` stars gets. */
  function TargetCount(n: int): (k: int)
    ensures k >= 3 && (k == 3 || k == n / 2)
    ensures n >= 4 ==> k < n
  {
    if 3 > n / 2 then 3 else n / 2
  }

  /** Every difficulty leaves room for at least one decoy star. */
  lemma DecoysAlwaysPresent(d: Users.GameDifficulty)
    ensures 3 <= TargetCount(Users.StarsCount(d)) < Users.StarsCount(d)
  {
  }

  /** `cs.filter { $0 != c }`. */
  function Without(cs: seq<Stars.ConstellationType>, c: Stars.ConstellationType): (r: seq<Stars.ConstellationType>)
    ensures forall x :: x in r <==> x in cs && x != c
  {
    if cs == [] then []
    else
      assert cs == [cs[0]] + cs[1..];
      (if cs[0] == c then [] else [cs[0]]) + Without(cs[1..], c)
  }

  /** `otherConstellations`: every case except `c`. */
  function Others(c: Stars.ConstellationType): (r: seq<Stars.ConstellationType>)
    ensures forall x :: x in r <==> x != c
  {
    Stars.AllCasesEnumerates();
    Without(Stars.AllCases(), c)
  }

  /** The random choices of one `generateStars` call, in the order the
      source draws them: a position and a brightness per star, the decoy
      constellation of each non-target star, and the shuffle's swap
      offsets. */
  datatype Draws = Draws(
    positions: seq<Stars.Point>,
    brightness: seq<real>,
    decoys: seq<Stars.ConstellationType>,
    picks: seq<nat>)

  /** The draws fit a field of `n` stars whose target is `current`: each
      decoy is another constellation (an element of `Others(current)`) and
      the `k`-th swap partner lies in `k ..< n`, as `shuffle()` picks it. */
  predicate DrawsFit(dr: Draws, n: int, current: Stars.ConstellationType) {
    && |dr.positions| == n
    && |dr.brightness| == n
    && |dr.decoys| == n - TargetCount(n)
    && (forall i :: 0 <= i < |dr.decoys| ==> dr.decoys[i] != current)
    && |dr.picks| == n
    && (forall k :: 0 <= k < n ==> dr.picks[k] < n - k)
  }

  /** The star list `generateStars` builds before shuffling: the target
      stars first, then the decoys, with consecutive fresh ids. */
  function Layout(current: Stars.ConstellationType, firstId: nat, dr: Draws, n: nat): (r: seq<Stars.Star>)
    requires DrawsFit(dr, n, current)
    ensures |r| == n
    ensures forall i :: 0 <= i < n ==>
      && r[i].id == firstId + i
      && r[i].position == dr.positions[i]
      && r[i].brightness == dr.brightness[i]
      && !r[i].isSelected && !r[i].isMatched
      && (r[i].constellationType == current <==> i < TargetCount(n))
  {
    var k := TargetCount(n);
    seq(n, i requires 0 <= i < n =>
      Stars.NewStar(firstId + i, dr.positions[i], if i < k then current else dr.decoys[i - k], dr.brightness[i]))
  }

  /** The two loops of `generateStars`, appending `TargetCount(n)` target
      stars and then one star per decoy draw, each with the next id. */
  method BuildLayout(current: Stars.ConstellationType, firstId: nat, dr: Draws, n: nat) returns (r: seq<Stars.Star>)
    requires DrawsFit(dr, n, current)
    ensures r == Layout(current, firstId, dr, n)
  {
    var k := TargetCount(n);
    ghost var layout := Layout(current, firstId, dr, n);
    r := [];
    var id := firstId;
    var i := 0;
    while i < k
      invariant 0 <= i <= k
      invariant r == layout[..i] && id == firstId + i
    {
      r := r + [Stars.NewStar(id, dr.positions[i], current, dr.brightness[i])];
      id := id + 1;
      i := i + 1;
    }
    var j := 0;
    while j < n - k
      invariant 0 <= j <= n - k
      invariant r == layout[..k + j] && id == firstId + k + j
    {
      r := r + [Stars.NewStar(id, dr.positions[k + j], dr.decoys[j], dr.brightness[k + j])];
      id := id + 1;
      j := j + 1;
    }
    assert r == layout;
  }

  /** No two stars share an id. */
  predicate DistinctIds(s: seq<Stars.Star>) {
    forall i, j :: 0 <= i < j < |s| ==> s[i].id != s[j].id
  }

  /** A freshly generated field of `n` stars for target `current`: exactly
      `TargetCount(n)` target stars, so at least one decoy, every star
      unselected and with an id in `firstId ..< firstId + n`. */
  predicate NewField(stars: seq<Stars.Star>, current: Stars.ConstellationType, firstId: nat, n: nat) {
    && |stars| == n
    && |GameScreen.OfType(stars, current)| == TargetCount(n)
    && DecoyPresent(stars, current)
    && forall i :: 0 <= i < |stars| ==> !stars[i].isSelected && firstId <= stars[i].id < firstId + n
  }

  /** Any reordering of a layout is a new field. */
  lemma LayoutPermutationFacts(stars: seq<Stars.Star>, current: Stars.ConstellationType, firstId: nat, dr: Draws, n: nat)
    requires DrawsFit(dr, n, current) && n >= 4
    requires multiset(stars) == multiset(Layout(current, firstId, dr, n))
    ensures NewField(stars, current, firstId, n)
  {
    var layout := Layout(current, firstId, dr, n);
    assert |stars| == |multiset(stars)| == |layout|;
    GameScreen.CountOfSplit(layout, TargetCount(n), current);
    GameScreen.OfTypeCountPermutation(stars, layout, current);
    assert layout[n - 1] in multiset(stars);
    forall i | 0 <= i < |stars| ensures !stars[i].isSelected && firstId <= stars[i].id < firstId + n {
      assert stars[i] in multiset(layout);
    }
  }

  /** `stars.shuffle()`: the Fisher-Yates walk, swapping position `k` with
      position `k + picks[k]`. */
  method Shuffle(s: seq<Stars.Star>, picks: seq<nat>) returns (r: seq<Stars.Star>)
    requires |picks| == |s| && forall k :: 0 <= k < |s| ==> picks[k] < |s| - k
    ensures multiset(r) == multiset(s)
    ensures DistinctIds(s) ==> DistinctIds(r)
  {
    r := s;
    var k := 0;
    while k < |r|
      invariant 0 <= k <= |r| == |s|
      invariant multiset(r) == multiset(s)
      invariant DistinctIds(s) ==> DistinctIds(r)
    {
      var j := k + picks[k];
      var a, b := r[k], r[j];
      r := r[k := b][j := a];
      k := k + 1;
    }
  }

  /** The seven stars of the tutorial: four of Ursa Major, then three of
      Orion, at fixed positions and full brightness. */
  function TutorialPositions(): (r: seq<Stars.Point>)
    ensures |r| == 7
  {
    [Stars.Point(100, 200), Stars.Point(150, 180), Stars.Point(200, 200), Stars.Point(250, 170),
     Stars.Point(120, 300), Stars.Point(180, 320), Stars.Point(230, 300)]
  }

  function TutorialLayout(firstId: nat): (r: seq<Stars.Star>)
    ensures |r| == 7
    ensures forall i :: 0 <= i < 7 ==>
      r[i] == Stars.NewStar(firstId + i, TutorialPositions()[i], if i < 4 then Stars.Ursa else Stars.Orion)
  {
    seq(7, i requires 0 <= i < 7 =>
      Stars.NewStar(firstId + i, TutorialPositions()[i], if i < 4 then Stars.Ursa else Stars.Orion))
  }

  /** The tutorial field holds four Ursa Major stars among seven, none
      selected and no two with the same id. */
  lemma TutorialFacts(firstId: nat)
    ensures |GameScreen.OfType(TutorialLayout(firstId), Stars.Ursa)| == 4
    ensures DistinctIds(TutorialLayout(firstId))
    ensures forall i :: 0 <= i < 7 ==> !TutorialLayout(firstId)[i].isSelected
  {
    GameScreen.CountOfSplit(TutorialLayout(firstId), 4, Stars.Ursa);
  }

  /** The ids of a list of stars. */
  function IdsOf(s: seq<Stars.Star>): (r: set<nat>)
    ensures |r| <= |s|
  {
    if s == [] then {} else {s[0].id} + IdsOf(s[1..])
  }

  /** A star's id is among the ids of any list holding it, and nothing else is. */
  lemma {:induction false} IdsOfMembers(s: seq<Stars.Star>)
    ensures forall x :: x in s ==> x.id in IdsOf(s)
    ensures forall id :: id in IdsOf(s) ==> exists i :: 0 <= i < |s| && s[i].id == id
  {
    if s != [] {
      IdsOfMembers(s[1..]);
      assert s == [s[0]] + s[1..];
      forall id | id in IdsOf(s) ensures exists i :: 0 <= i < |s| && s[i].id == id {
        if id != s[0].id {
          var i :| 0 <= i < |s[1..]| && s[1..][i].id == id;
          assert s[i + 1].id == id;
        }
      }
    }
  }

  lemma {:induction false} IdsOfAppend(u: seq<Stars.Star>, v: seq<Stars.Star>)
    ensures IdsOf(u + v) == IdsOf(u) + IdsOf(v)
  {
    if u == [] {
      assert u + v == v;
    } else {
      assert (u + v)[0] == u[0] && (u + v)[1..] == u[1..] + v;
      IdsOfAppend(u[1..], v);
    }
  }

  /** Every star of `u` is a star of `v`, so every id of `u` is an id of `v`. */
  lemma IdsOfSubset(u: seq<Stars.Star>, v: seq<Stars.Star>)
    requires forall x :: x in u ==> x in v
    ensures IdsOf(u) <= IdsOf(v)
  {
    IdsOfMembers(u);
    IdsOfMembers(v);
    forall id | id in IdsOf(u) ensures id in IdsOf(v) {
      var i :| 0 <= i < |u| && u[i].id == id;
      assert u[i] in v;
    }
  }

  /** The ids of the stars of type `t`. */
  function IdsOfType(s: seq<Stars.Star>, t: Stars.ConstellationType): (r: set<nat>)
    ensures |r| < |s| || forall i :: 0 <= i < |s| ==> s[i].constellationType == t
  {
    GameScreen.OfTypeKeepsAll(s, t);
    IdsOf(GameScreen.OfType(s, t))
  }

  /** `matchedStars` holding only ids of target stars, while a star of
      another constellation is on the field, cannot be as large as the
      field: the completion test `matchedStars.count == stars.count` fails. */
  lemma MatchedNeverAll(stars: seq<Stars.Star>, matched: set<nat>, current: Stars.ConstellationType)
    requires matched <= IdsOfType(stars, current)
    requires DecoyPresent(stars, current)
    ensures |matched| < |stars|
  {
    SubsetCard(matched, IdsOfType(stars, current));
  }

  lemma {:induction false} SubsetCard(a: set<nat>, b: set<nat>)
    requires a <= b
    ensures |a| <= |b|
    decreases |b|
  {
    if a != {} {
      var x :| x in a;
      SubsetCard(a - {x}, b - {x});
    }
  }

  /** `clearSelection` on the star list: every flag down, nothing else
      touched. */
  function Unselected(s: seq<Stars.Star>): (r: seq<Stars.Star>)
    ensures |r| == |s|
    ensures forall i :: 0 <= i < |s| ==> r[i] == s[i].(isSelected := false)
  {
    seq(|s|, i requires 0 <= i < |s| => s[i].(isSelected := false))
  }

  /** Two star lists that differ at most in flags, position and
      brightness. */
  predicate SameIdsAndTypes(a: seq<Stars.Star>, b: seq<Stars.Star>) {
    |a| == |b| && forall i :: 0 <= i < |a| ==> a[i].id == b[i].id && a[i].constellationType == b[i].constellationType
  }

  /** Changing flags keeps each id with its type. */
  lemma {:induction false} SameTypedIds(a: seq<Stars.Star>, b: seq<Stars.Star>, t: Stars.ConstellationType)
    requires SameIdsAndTypes(a, b)
    ensures IdsOfType(a, t) == IdsOfType(b, t)
    ensures DistinctIds(a) <==> DistinctIds(b)
  {
    if a != [] {
      SameTypedIds(a[1..], b[1..], t);
      var ha := if a[0].constellationType == t then [a[0]] else [];
      var hb := if b[0].constellationType == t then [b[0]] else [];
      assert GameScreen.OfType(a, t) == ha + GameScreen.OfType(a[1..], t);
      assert GameScreen.OfType(b, t) == hb + GameScreen.OfType(b[1..], t);
      IdsOfAppend(ha, GameScreen.OfType(a[1..], t));
      IdsOfAppend(hb, GameScreen.OfType(b[1..], t));
      assert IdsOf(ha) == IdsOf(hb) by {
        if ha != [] {
          assert ha[1..] == [] && hb[1..] == [];
        }
      }
    }
  }

  /** `stars.firstIndex(where: { $0.id == id })`. */
  function IndexOfId(s: seq<Stars.Star>, id: nat): (r: Option<nat>)
    ensures r.Some? ==> r.value < |s| && s[r.value].id == id
    ensures r.None? ==> forall i :: 0 <= i < |s| ==> s[i].id != id
  {
    if s == [] then None
    else if s[0].id == id then Some(0)
    else match IndexOfId(s[1..], id)
      case None => None
      case Some(i) => Some(i + 1)
  }

  /** `selectedStars.removeAll { $0.id == id }`. */
  function RemoveId(s: seq<Stars.Star>, id: nat): (r: seq<Stars.Star>)
    ensures |r| <= |s|
    ensures forall x :: x in r <==> x in s && x.id != id
    ensures IdsOf(r) == IdsOf(s) - {id}
  {
    if s == [] then []
    else
      assert s == [s[0]] + s[1..];
      var rest := RemoveId(s[1..], id);
      if s[0].id == id then rest
      else
        assert ([s[0]] + rest)[1..] == rest;
        [s[0]] + rest
  }

  /** The part of the session state that play changes. */
  datatype Play = Play(
    stars: seq<Stars.Star>,
    selected: seq<Stars.Star>,
    matched: set<nat>,
    score: int,
    combo: int,
    time: int,
    state: GameState,
    timerActive: bool,
    showingTip: bool,
    pending: nat)

  /** `clearSelection`. */
  function ClearedPlay(p: Play): (r: Play)
    ensures r.selected == [] && |r.stars| == |p.stars|
    ensures forall i :: 0 <= i < |r.stars| ==> !r.stars[i].isSelected
    ensures r.matched == p.matched && r.score == p.score && r.combo == p.combo && SameControl(r, p)
  {
    p.(selected := [], stars := Unselected(p.stars))
  }

  /** `completeLevel`: the level is won, the timer stops, the tip shows, the
      remaining tenths of a second are added as bonus points and a move to
      the next level is scheduled. */
  function CompletedPlay(p: Play): (r: Play)
    ensures r.state == Completed && !r.timerActive && r.showingTip
    ensures r.score - p.score == p.time && r.pending == p.pending + 1
    ensures r.stars == p.stars && r.selected == p.selected && r.matched == p.matched && r.combo == p.combo
  {
    p.(state := Completed, timerActive := false, showingTip := true,
       score := p.score + p.time, pending := p.pending + 1)
  }

  /** The successful branch of `checkForMatch` with target stars `cs`: the
      score grows by the match score computed with the old combo, the combo
      by one, the matched set by the ids of `cs`; the selection is cleared
      and the level is completed when every star is matched. */
  function Hit(p: Play, cs: seq<Stars.Star>, halves: int): (r: Play)
    ensures r.combo == p.combo + 1 && r.matched == p.matched + IdsOf(cs) && r.selected == []
    ensures |r.stars| == |p.stars|
    ensures |r.matched| < |r.stars| ==>
      SameControl(r, p) && r.score == p.score + MatchScore(|cs|, p.combo, halves)
    ensures |r.matched| == |r.stars| ==>
      r.state == Completed && r.pending == p.pending + 1
      && r.score == p.score + MatchScore(|cs|, p.combo, halves) + p.time
  {
    var q := ClearedPlay(Scored(p, cs, halves));
    if |q.matched| == |q.stars| then CompletedPlay(q) else q
  }

  /** The state a successful match reaches before the selection is
      cleared. */
  function Scored(p: Play, cs: seq<Stars.Star>, halves: int): (r: Play)
    ensures (r.score - p.score) * 2 == (|cs| * 100 + p.combo * 50) * halves
    ensures r.combo == p.combo + 1 && p.matched <= r.matched && IdsOf(cs) <= r.matched
    ensures r.stars == p.stars && r.selected == p.selected && SameControl(r, p)
  {
    p.(score := p.score + MatchScore(|cs|, p.combo, halves),
       combo := p.combo + 1, matched := p.matched + IdsOf(cs))
  }

  /** `max(0, score - 50)`. */
  function Penalized(score: int): (r: int)
    ensures r >= 0 && r >= score - 50 && (r == 0 || r == score - 50)
  {
    if score - 50 > 0 then score - 50 else 0
  }

  /** The failed branch of `checkForMatch`: a running combo is lost together
      with 50 points (never going below zero); the selection is cleared. */
  function Miss(p: Play): (r: Play)
    ensures r.selected == [] && |r.stars| == |p.stars| && r.matched == p.matched && SameControl(r, p)
    ensures p.combo > 0 ==> r.combo == 0 && r.score >= 0 && r.score >= p.score - 50
    ensures p.combo > 0 && p.score >= 50 ==> r.score == p.score - 50
    ensures p.combo <= 0 ==> r.combo == p.combo && r.score == p.score
  {
    ClearedPlay(if p.combo > 0 then p.(combo := 0, score := Penalized(p.score)) else p)
  }

  /** `checkForMatch` for target `current` and multiplier `halves`. */
  function MatchStep(p: Play, current: Stars.ConstellationType, halves: int): (r: Play)
    ensures |p.selected| < 3 ==> r == p
    ensures |p.selected| >= 3 ==> r.selected == [] && p.matched <= r.matched
    ensures |p.selected| >= 3 ==>
      (r.combo == p.combo + 1 <==> |GameScreen.OfType(p.selected, current)| >= 3)
    ensures |p.selected| >= 3 && |GameScreen.OfType(p.selected, current)| < 3 ==> r.matched == p.matched
  {
    if |p.selected| < 3 then p
    else
      var cs := GameScreen.OfType(p.selected, current);
      if |cs| >= 3 then Hit(p, cs, halves) else Miss(p)
  }

  /** The first half of `selectStar` on the star at index `i` with id `id`:
      its flag flips; a newly selected star is appended to the selection, a
      deselected one removed from it with every entry of its id. */
  function Toggled(p: Play, i: nat, id: nat): (r: Play)
    requires i < |p.stars|
    ensures |r.stars| == |p.stars| && r.stars[i].isSelected == !p.stars[i].isSelected
    ensures r.stars[i].id == p.stars[i].id && r.stars[i].constellationType == p.stars[i].constellationType
    ensures forall j :: 0 <= j < |p.stars| && j != i ==> r.stars[j] == p.stars[j]
    ensures r.stars[i].isSelected ==> r.selected == p.selected + [r.stars[i]]
    ensures !r.stars[i].isSelected ==> IdsOf(r.selected) == IdsOf(p.selected) - {id}
    ensures r.matched == p.matched && r.score == p.score && r.combo == p.combo && SameControl(r, p)
  {
    var s := p.stars[i].(isSelected := !p.stars[i].isSelected);
    p.(stars := p.stars[i := s],
       selected := if s.isSelected then p.selected + [s] else RemoveId(p.selected, id))
  }

  /** `selectStar` for the star with id `id`. */
  function SelectStep(p: Play, id: nat, current: Stars.ConstellationType, halves: int): (r: Play)
    ensures p.state != Playing ==> r == p
    ensures (forall j :: 0 <= j < |p.stars| ==> p.stars[j].id != id) ==> r == p
    ensures |r.stars| == |p.stars| && p.matched <= r.matched
  {
    if p.state != Playing then p
    else match IndexOfId(p.stars, id)
      case None => p
      case Some(i) => MatchStep(Toggled(p, i, id), current, halves)
  }

  /** The state of play between and during moves: star ids are unique; the
      selection holds copies of stars on the field; a star's flag is up
      exactly when its id is selected; only target stars are matched; a
      decoy is on the field; score and combo are not negative. */
  predicate Consistent(p: Play, current: Stars.ConstellationType) {
    && DistinctIds(p.stars)
    && SelectionOnField(p)
    && FlagsFollowSelection(p)
    && p.matched <= IdsOfType(p.stars, current)
    && DecoyPresent(p.stars, current)
    && p.score >= 0 && p.combo >= 0
  }

  /** Every selected star is a copy of a star on the field. */
  predicate SelectionOnField(p: Play) {
    forall x :: x in p.selected ==> x in p.stars
  }

  /** A star's flag is up exactly when its id is among the selected. */
  predicate FlagsFollowSelection(p: Play) {
    forall i :: 0 <= i < |p.stars| ==> (p.stars[i].isSelected <==> p.stars[i].id in IdsOf(p.selected))
  }

  /** Some star on the field belongs to another constellation. */
  predicate DecoyPresent(stars: seq<Stars.Star>, current: Stars.ConstellationType) {
    exists i :: 0 <= i < |stars| && stars[i].constellationType != current
  }

  /** Changing flags keeps a decoy on the field. */
  lemma DecoyKept(a: seq<Stars.Star>, b: seq<Stars.Star>, current: Stars.ConstellationType)
    requires SameIdsAndTypes(a, b) && DecoyPresent(b, current)
    ensures DecoyPresent(a, current)
  {
    var w :| 0 <= w < |b| && b[w].constellationType != current;
    assert a[w].constellationType != current;
  }

  /** Ordinary play between moves: consistent, with at most two stars
      selected. */
  predicate PlayNormal(p: Play, current: Stars.ConstellationType) {
    Consistent(p, current) && |p.selected| < 3
  }

  /** A new field with nothing selected or matched is ordinary play. */
  lemma NewFieldIsNormal(p: Play, current: Stars.ConstellationType, firstId: nat, n: nat)
    requires NewField(p.stars, current, firstId, n) && DistinctIds(p.stars)
    requires p.selected == [] && p.matched == {} && p.score >= 0 && p.combo >= 0
    ensures PlayNormal(p, current)
  {
    assert IdsOf(p.selected) == {};
  }

  /** In ordinary play the completion test never holds, so neither the level
      bonus nor the "Perfect Game" banner can be reached. */
  lemma NormalPlayNeverComplete(p: Play, current: Stars.ConstellationType)
    requires Consistent(p, current)
    ensures |p.matched| < |p.stars|
    ensures !GameScreen.PerfectShown(|p.matched|, p.stars)
  {
    MatchedNeverAll(p.stars, p.matched, current);
  }

  /** Clearing the selection of a state whose matched ids are target ids
      gives ordinary play in which the level is not complete. */
  lemma ClearedNormal(q: Play, current: Stars.ConstellationType)
    requires DistinctIds(q.stars) && q.matched <= IdsOfType(q.stars, current)
    requires DecoyPresent(q.stars, current)
    requires q.score >= 0 && q.combo >= 0
    ensures PlayNormal(ClearedPlay(q), current)
    ensures |ClearedPlay(q).matched| < |ClearedPlay(q).stars|
  {
    var u := Unselected(q.stars);
    SameTypedIds(u, q.stars, current);
    DecoyKept(u, q.stars, current);
    MatchedNeverAll(u, q.matched, current);
  }

  /** The stars a match adds are target stars on the field. */
  lemma MatchedStaysTargeted(p: Play, current: Stars.ConstellationType)
    requires SelectionOnField(p) && p.matched <= IdsOfType(p.stars, current)
    ensures p.matched + IdsOf(GameScreen.OfType(p.selected, current)) <= IdsOfType(p.stars, current)
  {
    GameScreen.OfTypeMembers(p.selected, current);
    GameScreen.OfTypeMembers(p.stars, current);
    IdsOfSubset(GameScreen.OfType(p.selected, current), GameScreen.OfType(p.stars, current));
  }

  /** A match from a consistent state never completes the level and gives
      ordinary play. */
  lemma HitOutcome(p: Play, current: Stars.ConstellationType, halves: int)
    requires Consistent(p, current) && halves >= 2
    requires |GameScreen.OfType(p.selected, current)| >= 3
    ensures Hit(p, GameScreen.OfType(p.selected, current), halves)
      == ClearedPlay(Scored(p, GameScreen.OfType(p.selected, current), halves))
    ensures PlayNormal(Hit(p, GameScreen.OfType(p.selected, current), halves), current)
  {
    var cs := GameScreen.OfType(p.selected, current);
    MatchedStaysTargeted(p, current);
    var q := Scored(p, cs, halves);
    assert q.stars == p.stars && q.score >= 0 && q.combo >= 0;
    ClearedNormal(q, current);
  }

  /** A failed match from a consistent state gives ordinary play with the
      same matched set. */
  lemma MissOutcome(p: Play, current: Stars.ConstellationType)
    requires Consistent(p, current)
    ensures PlayNormal(Miss(p), current)
    ensures Miss(p).matched == p.matched && Miss(p).combo == 0
    ensures Miss(p).score == if p.combo > 0 then Penalized(p.score) else p.score
  {
    ClearedNormal(if p.combo > 0 then p.(combo := 0, score := Penalized(p.score)) else p, current);
  }

  /** What `checkForMatch` does from a consistent state: with fewer than
      three selected stars nothing; otherwise the selection is cleared and
      either at least three target stars score (old combo), raise the combo
      and join the matched set, or the combo is lost with a penalty of 50
      floored at 0. The level is never completed, and the result is again
      ordinary play. */
  lemma MatchStepOutcome(p: Play, current: Stars.ConstellationType, halves: int)
    requires Consistent(p, current) && halves >= 2
    ensures PlayNormal(MatchStep(p, current, halves), current)
    ensures SameControl(MatchStep(p, current, halves), p)
    ensures |p.selected| < 3 ==> MatchStep(p, current, halves) == p
    ensures |p.selected| >= 3 && |GameScreen.OfType(p.selected, current)| >= 3 ==>
      MatchStep(p, current, halves) == ClearedPlay(Scored(p, GameScreen.OfType(p.selected, current), halves))
    ensures |p.selected| >= 3 && |GameScreen.OfType(p.selected, current)| < 3 ==>
      MatchStep(p, current, halves) == ClearedPlay(p.(combo := 0,
        score := if p.combo > 0 then Penalized(p.score) else p.score))
  {
    if |p.selected| >= 3 {
      if |GameScreen.OfType(p.selected, current)| >= 3 {
        HitOutcome(p, current, halves);
      } else {
        MissOutcome(p, current);
      }
    }
  }

  /** Flipping one flag keeps every id with its type. */
  lemma ToggledSameShape(p: Play, i: nat, id: nat)
    requires i < |p.stars|
    ensures SameIdsAndTypes(Toggled(p, i, id).stars, p.stars)
  {
  }

  /** Selecting star `i` keeps the selection on the field and the flags in
      step with it. */
  lemma SelectFlags(p: Play, i: nat, id: nat)
    requires SelectionOnField(p) && FlagsFollowSelection(p) && DistinctIds(p.stars)
    requires i < |p.stars| && p.stars[i].id == id && !p.stars[i].isSelected
    ensures SelectionOnField(Toggled(p, i, id)) && FlagsFollowSelection(Toggled(p, i, id))
  {
    var q := Toggled(p, i, id);
    var s := q.stars[i];
    IdsOfMembers(p.selected);
    IdsOfAppend(p.selected, [s]);
    assert IdsOf([s]) == {id} by {
      assert [s][1..] == [];
    }
    forall x | x in q.selected ensures x in q.stars {
      if x != s {
        var j :| 0 <= j < |p.stars| && p.stars[j] == x;
        assert j != i;
        assert q.stars[j] == x;
      }
    }
  }

  /** Deselecting star `i` keeps the selection on the field and the flags
      in step with it. */
  lemma DeselectFlags(p: Play, i: nat, id: nat)
    requires SelectionOnField(p) && FlagsFollowSelection(p) && DistinctIds(p.stars)
    requires i < |p.stars| && p.stars[i].id == id && p.stars[i].isSelected
    ensures SelectionOnField(Toggled(p, i, id)) && FlagsFollowSelection(Toggled(p, i, id))
  {
    var q := Toggled(p, i, id);
    forall x | x in q.selected ensures x in q.stars {
      var j :| 0 <= j < |p.stars| && p.stars[j] == x;
      assert q.stars[j] == x;
    }
  }

  /** Selecting a star that was not selected keeps the state consistent. */
  lemma SelectKeepsConsistent(p: Play, i: nat, id: nat, current: Stars.ConstellationType)
    requires PlayNormal(p, current) && i < |p.stars| && p.stars[i].id == id && !p.stars[i].isSelected
    ensures Consistent(Toggled(p, i, id), current)
    ensures |Toggled(p, i, id).selected| <= 3
  {
    var q := Toggled(p, i, id);
    ToggledSameShape(p, i, id);
    SameTypedIds(q.stars, p.stars, current);
    DecoyKept(q.stars, p.stars, current);
    SelectFlags(p, i, id);
  }

  /** Deselecting a selected star keeps the state consistent. */
  lemma DeselectKeepsConsistent(p: Play, i: nat, id: nat, current: Stars.ConstellationType)
    requires PlayNormal(p, current) && i < |p.stars| && p.stars[i].id == id && p.stars[i].isSelected
    ensures Consistent(Toggled(p, i, id), current)
  {
    var q := Toggled(p, i, id);
    ToggledSameShape(p, i, id);
    SameTypedIds(q.stars, p.stars, current);
    DecoyKept(q.stars, p.stars, current);
    DeselectFlags(p, i, id);
  }

  /** `selectStar` from ordinary play leads to ordinary play again. Outside
      `.playing`, or for an id not on the field, it changes nothing. */
  lemma SelectStepKeepsNormal(p: Play, id: nat, current: Stars.ConstellationType, halves: int)
    requires PlayNormal(p, current) && halves >= 2
    ensures PlayNormal(SelectStep(p, id, current, halves), current)
    ensures SameControl(SelectStep(p, id, current, halves), p)
    ensures p.state != Playing || IndexOfId(p.stars, id).None? ==> SelectStep(p, id, current, halves) == p
  {
    if p.state == Playing && IndexOfId(p.stars, id).Some? {
      var i := IndexOfId(p.stars, id).value;
      if p.stars[i].isSelected {
        DeselectKeepsConsistent(p, i, id, current);
      } else {
        SelectKeepsConsistent(p, i, id, current);
      }
      MatchStepOutcome(Toggled(p, i, id), current, halves);
    }
  }

  /** The fields play leaves alone unless a level is completed: state,
      clock, timer, tip and scheduled level changes. */
  predicate SameControl(a: Play, b: Play) {
    a.state == b.state && a.time == b.time && a.timerActive == b.timerActive
    && a.showingTip == b.showingTip && a.pending == b.pending
  }

  /** Matching only clears flags. */
  lemma MatchStepKeepsField(p: Play, current: Stars.ConstellationType, halves: int)
    ensures SameIdsAndTypes(MatchStep(p, current, halves).stars, p.stars)
  {
    if |p.selected| >= 3 {
      assert MatchStep(p, current, halves).stars == Unselected(p.stars);
    }
  }

  /** Selecting never changes which stars are on the field or their types:
      only flags move. */
  lemma SelectStepKeepsField(p: Play, id: nat, current: Stars.ConstellationType, halves: int)
    ensures SameIdsAndTypes(SelectStep(p, id, current, halves).stars, p.stars)
  {
    if p.state == Playing && IndexOfId(p.stars, id).Some? {
      var i := IndexOfId(p.stars, id).value;
      var q := Toggled(p, i, id);
      ToggledSameShape(p, i, id);
      MatchStepKeepsField(q, current, halves);
    }
  }

  /** What `endGame` leaves in the player's progress: the score is
      reported, then the matched count; a perfect game is recorded and the
      constellation completed when every star was matched, the streak is
      reset otherwise; then the elapsed time is offered as a best time and
      a level-up is checked. */
  function EndGameProgress(p: Progress.UserProgress, score: int, matchedCount: int, total: int,
                           c: Stars.ConstellationType, elapsed: int): (r: Progress.UserProgress)
    ensures r.gamesPlayed == p.gamesPlayed + 1 && r.totalScore == p.totalScore + score
    ensures r.totalStarsMatched == p.totalStarsMatched + matchedCount
    ensures matchedCount != total ==> r.streakCount == 0 && r.perfectGames == p.perfectGames
  {
    var reported := Progress.AddStarsMatched(Progress.UpdateScore(p, score), matchedCount);
    var streak := if matchedCount == total
      then Progress.CompleteConstellation(Progress.RecordPerfectGame(reported), c)
      else Progress.ResetStreak(reported);
    Progress.LevelUp(Progress.RecordTime(streak, elapsed))
  }

  /** The counters `endGame` always reports. */
  lemma EndGameCounters(p: Progress.UserProgress, score: int, matchedCount: int, total: int,
                        c: Stars.ConstellationType, elapsed: int)
    ensures var r := EndGameProgress(p, score, matchedCount, total, c, elapsed);
      && r.gamesPlayed == p.gamesPlayed + 1
      && r.totalScore == p.totalScore + score
      && r.highScore == (if score > p.highScore then score else p.highScore)
      && r.totalStarsMatched == p.totalStarsMatched + matchedCount
    ensures var r := EndGameProgress(p, score, matchedCount, total, c, elapsed);
      r.currentLevel == if p.totalScore + score >= p.currentLevel * 1000 then p.currentLevel + 1 else p.currentLevel
    ensures var r := EndGameProgress(p, score, matchedCount, total, c, elapsed);
      r.bestTime == if p.bestTime == 0 || elapsed < p.bestTime then elapsed else p.bestTime
    ensures Progress.DistinctAchievements(p) ==>
      Progress.DistinctAchievements(EndGameProgress(p, score, matchedCount, total, c, elapsed))
  {
    var p1 := Progress.UpdateScore(p, score);
    var p2 := Progress.AddStarsMatched(p1, matchedCount);
    if matchedCount == total {
      var p3 := Progress.RecordPerfectGame(p2);
      var p4 := Progress.CompleteConstellation(p3, c);
      assert p4.totalScore == p.totalScore + score && p4.currentLevel == p.currentLevel;
    }
  }

  /** `endGame` takes exactly one of its two branches: with every star
      matched a perfect game is recorded and the constellation completed,
      otherwise only the streak is reset. */
  lemma EndGameBranches(p: Progress.UserProgress, score: int, matchedCount: int, total: int,
                        c: Stars.ConstellationType, elapsed: int)
    ensures var r := EndGameProgress(p, score, matchedCount, total, c, elapsed);
      matchedCount == total ==>
        && r.perfectGames == p.perfectGames + 1 && r.streakCount == p.streakCount + 1
        && r.completedConstellations == p.completedConstellations + {Stars.RawValue(c)}
        && r.unlockedAvatars == p.unlockedAvatars + {Progress.AvatarId(c)}
    ensures var r := EndGameProgress(p, score, matchedCount, total, c, elapsed);
      matchedCount != total ==>
        && r.perfectGames == p.perfectGames && r.streakCount == 0
        && r.completedConstellations == p.completedConstellations
        && r.unlockedAvatars == p.unlockedAvatars
  {
    var p1 := Progress.UpdateScore(p, score);
    var p2 := Progress.AddStarsMatched(p1, matchedCount);
    if matchedCount == total {
      var p3 := Progress.RecordPerfectGame(p2);
      var p4 := Progress.CompleteConstellation(p3, c);
      assert p4.perfectGames == p.perfectGames + 1 && p4.streakCount == p.streakCount + 1;
    }
  }

  /** Ending a game from ordinary play always takes the reset-streak
      branch: no perfect game and no completed constellation is ever
      recorded from play that follows the rules of the engine. */
  lemma NormalEndGameIsNeverPerfect(p: Play, current: Stars.ConstellationType,
                                    prog: Progress.UserProgress, elapsed: int)
    requires Consistent(p, current)
    ensures var r := EndGameProgress(prog, p.score, |p.matched|, |p.stars|, current, elapsed);
      r.streakCount == 0 && r.perfectGames == prog.perfectGames
      && r.completedConstellations == prog.completedConstellations
  {
    NormalPlayNeverComplete(p, current);
    EndGameBranches(prog, p.score, |p.matched|, |p.stars|, current, elapsed);
  }
}

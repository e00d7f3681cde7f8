/** The player's long-term record (Models/UserProgress.swift). `UserProgress`
    is a Swift struct, a value: each `mutating func` is modelled as a function
    from the old value to the new one. Times are in tenths of a second. */
module Progress {
  import opened Text
  import Stars
  import Seqs

  datatype AchievementType =
    | FirstConstellation | ConstellationMaster | ScoreThousand | ScoreTenThousand
    | StarMatcher | PerfectStreak | SpeedDemon | DedicatedPlayer

  /** The achievements in the order `checkForAchievements` considers them. */
  function AchievementOrder(): seq<AchievementType> {
    [FirstConstellation, ConstellationMaster, ScoreThousand, ScoreTenThousand,
     StarMatcher, PerfectStreak, SpeedDemon, DedicatedPlayer]
  }

  datatype UserProgress = UserProgress(
    currentLevel: int,
    totalScore: int,
    highScore: int,
    completedConstellations: set<string>,
    unlockedAvatars: set<string>,
    achievements: seq<AchievementType>,
    gamesPlayed: int,
    totalStarsMatched: int,
    perfectGames: int,
    streakCount: int,
    bestTime: int)

  /** `UserProgress()`: level 1, everything else zero or empty. */
  function Fresh(): (p: UserProgress)
    ensures p.currentLevel == 1 && p.totalScore == 0 && p.achievements == []
    ensures p.completedConstellations == {} && p.unlockedAvatars == {}
  {
    UserProgress(1, 0, 0, {}, {}, [], 0, 0, 0, 0, 0)
  }

  /** The avatar every player has without unlocking it. */
  const DefaultAvatar: string := "avatar_ursa_major"

  /** `"avatar_"` followed by the lower-cased display name with every space
      replaced by an underscore. */
  function AvatarId(c: Stars.ConstellationType): (id: string)
    ensures |id| == 7 + |Stars.RawValue(c)| && id[..7] == "avatar_"
    ensures forall i :: 7 <= i < |id| ==> id[i] != ' ' && !IsUpper(id[i])
  {
    "avatar_" + ReplaceChar(Lowercased(Stars.RawValue(c)), ' ', '_')
  }

  /** The default avatar is the one unlocked by Ursa Major. */
  lemma DefaultAvatarIsUrsa()
    ensures AvatarId(Stars.Ursa) == DefaultAvatar
  {
    assert Stars.RawValue(Stars.Ursa) == "Ursa Major";
    UrsaMajorName();
    JoinUrsaMajor();
  }

  lemma UrsaMajorName()
    ensures ReplaceChar(Lowercased("Ursa Major"), ' ', '_') == "ursa_major"
  {
    LowerUrsaMajor("Ursa Major");
    SpaceToUnderscore("ursa major");
  }

  lemma SpaceToUnderscore(s: string)
    requires s == "ursa major"
    ensures ReplaceChar(s, ' ', '_') == "ursa_major"
  {
    var r := ReplaceChar(s, ' ', '_');
    assert r[0] == 'u';
    assert r[1] == 'r';
    assert r[2] == 's';
    assert r[3] == 'a';
    assert r[4] == '_';
    assert r[5] == 'm';
    assert r[6] == 'a';
    assert r[7] == 'j';
    assert r[8] == 'o';
    assert r[9] == 'r';
  }

  lemma LowerUrsaMajor(s: string)
    requires s == "Ursa Major"
    ensures Lowercased(s) == "ursa major"
  {
    var l := Lowercased(s);
    assert l[0] == 'u';
    assert l[1] == 'r';
    assert l[2] == 's';
    assert l[3] == 'a';
    assert l[4] == ' ';
    assert l[5] == 'm';
    assert l[6] == 'a';
    assert l[7] == 'j';
    assert l[8] == 'o';
    assert l[9] == 'r';
  }

  lemma JoinUrsaMajor()
    ensures "avatar_" + "ursa_major" == DefaultAvatar
  {
    var a := "avatar_" + "ursa_major";
    forall i | 0 <= i < 17 ensures a[i] == "avatar_ursa_major"[i] {
      if i < 7 { assert a[i] == "avatar_"[i]; } else { assert a[i] == "ursa_major"[i - 7]; }
    }
  }

  /** `hasAchievement`. */
  predicate HasAchievement(p: UserProgress, t: AchievementType) {
    t in p.achievements
  }

  /** No achievement type appears twice. */
  predicate DistinctAchievements(p: UserProgress) {
    Seqs.Distinct(p.achievements)
  }

  /** The threshold each achievement waits for. */
  predicate Earned(p: UserProgress, t: AchievementType) {
    match t
    case FirstConstellation => |p.completedConstellations| == 1
    case ConstellationMaster => |p.completedConstellations| >= 5
    case ScoreThousand => p.totalScore >= 1000
    case ScoreTenThousand => p.totalScore >= 10000
    case StarMatcher => p.totalStarsMatched >= 100
    case PerfectStreak => p.streakCount >= 5
    case SpeedDemon => p.bestTime > 0 && p.bestTime <= 300
    case DedicatedPlayer => p.gamesPlayed >= 50
  }

  /** The thresholds look at everything but the achievement list. */
  lemma EarnedIgnoresAchievements(p: UserProgress, a: seq<AchievementType>)
    ensures forall t :: Earned(p.(achievements := a), t) == Earned(p, t)
  {
  }

  /** `AchievementOrder()` names every achievement type. */
  lemma AchievementOrderComplete()
    ensures forall t :: t in AchievementOrder()
  {
    forall t ensures t in AchievementOrder() {
      var order := AchievementOrder();
      match t
      case FirstConstellation => assert order[0] == t;
      case ConstellationMaster => assert order[1] == t;
      case ScoreThousand => assert order[2] == t;
      case ScoreTenThousand => assert order[3] == t;
      case StarMatcher => assert order[4] == t;
      case PerfectStreak => assert order[5] == t;
      case SpeedDemon => assert order[6] == t;
      case DedicatedPlayer => assert order[7] == t;
    }
  }

  /** One guarded step of `checkForAchievements`: append `t` when it is
      earned and not yet held. */
  function Award(p: UserProgress, t: AchievementType): (r: UserProgress)
    ensures r == p.(achievements := r.achievements)
    ensures p.achievements <= r.achievements
    ensures forall u :: HasAchievement(r, u) <==> HasAchievement(p, u) || (u == t && Earned(p, t))
    ensures DistinctAchievements(p) ==> DistinctAchievements(r)
  {
    if Earned(p, t) && !HasAchievement(p, t) then p.(achievements := p.achievements + [t]) else p
  }

  /** The guarded steps for the achievements from position `i` of
      `AchievementOrder()` on, in order. */
  function AwardFrom(p: UserProgress, i: nat): (r: UserProgress)
    requires i <= |AchievementOrder()|
    ensures r == p.(achievements := r.achievements)
    ensures p.achievements <= r.achievements
    ensures forall t :: HasAchievement(r, t) <==>
      HasAchievement(p, t) || (t in AchievementOrder()[i..] && Earned(p, t))
    ensures DistinctAchievements(p) ==> DistinctAchievements(r)
    decreases |AchievementOrder()| - i
  {
    if i == |AchievementOrder()| then p
    else
      var q := Award(p, AchievementOrder()[i]);
      EarnedIgnoresAchievements(p, q.achievements);
      assert AchievementOrder()[i..] == [AchievementOrder()[i]] + AchievementOrder()[i + 1..];
      AwardFrom(q, i + 1)
  }

  /** `checkForAchievements`: the eight guarded steps in source order. Each
      achievement is afterwards held exactly when it was held before or its
      threshold is met; none is ever appended twice. */
  function CheckForAchievements(p: UserProgress): (r: UserProgress)
    ensures r == p.(achievements := r.achievements)
    ensures p.achievements <= r.achievements
    ensures forall t :: HasAchievement(r, t) <==> HasAchievement(p, t) || Earned(p, t)
    ensures DistinctAchievements(p) ==> DistinctAchievements(r)
  {
    AchievementOrderComplete();
    assert AchievementOrder()[0..] == AchievementOrder();
    AwardFrom(p, 0)
  }

  /** Running the check twice adds nothing the first run did not. */
  lemma {:induction false} CheckForAchievementsIdempotent(p: UserProgress)
    requires DistinctAchievements(p)
    ensures CheckForAchievements(CheckForAchievements(p)) == CheckForAchievements(p)
  {
    var r := CheckForAchievements(p);
    var r2 := CheckForAchievements(r);
    EarnedIgnoresAchievements(p, r.achievements);
    assert r2.achievements == r.achievements;
  }

  /** `updateScore`: the score joins the total, may become the high score,
      and counts as one more game played. */
  function UpdateScore(p: UserProgress, newScore: int): (r: UserProgress)
    ensures r == p.(totalScore := p.totalScore + newScore,
      highScore := if newScore > p.highScore then newScore else p.highScore,
      gamesPlayed := p.gamesPlayed + 1, achievements := r.achievements)
    ensures r.highScore >= p.highScore && r.highScore >= newScore
    ensures forall t :: HasAchievement(r, t) <==> HasAchievement(p, t) || Earned(r, t)
    ensures DistinctAchievements(p) ==> DistinctAchievements(r)
  {
    var q := p.(
      totalScore := p.totalScore + newScore,
      highScore := if newScore > p.highScore then newScore else p.highScore,
      gamesPlayed := p.gamesPlayed + 1);
    var r := CheckForAchievements(q);
    EarnedIgnoresAchievements(q, r.achievements);
    r
  }

  /** `completeConstellation`: records the display name (a set, so a second
      completion changes nothing there) and unlocks the matching avatar. */
  function CompleteConstellation(p: UserProgress, c: Stars.ConstellationType): (r: UserProgress)
    ensures r.completedConstellations == p.completedConstellations + {Stars.RawValue(c)}
    ensures r.unlockedAvatars == p.unlockedAvatars + {AvatarId(c)}
    ensures r == p.(completedConstellations := r.completedConstellations,
      unlockedAvatars := r.unlockedAvatars, achievements := r.achievements)
    ensures forall t :: HasAchievement(r, t) <==> HasAchievement(p, t) || Earned(r, t)
    ensures DistinctAchievements(p) ==> DistinctAchievements(r)
  {
    var q := p.(
      completedConstellations := p.completedConstellations + {Stars.RawValue(c)},
      unlockedAvatars := p.unlockedAvatars + {AvatarId(c)});
    var r := CheckForAchievements(q);
    EarnedIgnoresAchievements(q, r.achievements);
    r
  }

  /** `addStarsMatched`: only the matched-star counter (and possibly the
      achievements) change. */
  function AddStarsMatched(p: UserProgress, count: int): (r: UserProgress)
    ensures r == p.(totalStarsMatched := p.totalStarsMatched + count, achievements := r.achievements)
    ensures forall t :: HasAchievement(r, t) <==> HasAchievement(p, t) || Earned(r, t)
    ensures DistinctAchievements(p) ==> DistinctAchievements(r)
  {
    var q := p.(totalStarsMatched := p.totalStarsMatched + count);
    var r := CheckForAchievements(q);
    EarnedIgnoresAchievements(q, r.achievements);
    r
  }

  /** `recordPerfectGame`: one more perfect game and one longer streak. */
  function RecordPerfectGame(p: UserProgress): (r: UserProgress)
    ensures r.perfectGames == p.perfectGames + 1 && r.streakCount == p.streakCount + 1
    ensures r == p.(perfectGames := r.perfectGames, streakCount := r.streakCount, achievements := r.achievements)
    ensures forall t :: HasAchievement(r, t) <==> HasAchievement(p, t) || Earned(r, t)
    ensures DistinctAchievements(p) ==> DistinctAchievements(r)
  {
    var q := p.(perfectGames := p.perfectGames + 1, streakCount := p.streakCount + 1);
    var r := CheckForAchievements(q);
    EarnedIgnoresAchievements(q, r.achievements);
    r
  }

  /** `resetStreak`: the streak drops to zero and nothing else moves. */
  function ResetStreak(p: UserProgress): (r: UserProgress)
    ensures r.streakCount == 0 && r == p.(streakCount := 0)
    ensures DistinctAchievements(p) ==> DistinctAchievements(r)
  {
    p.(streakCount := 0)
  }

  /** `recordTime`: a time is kept when none is recorded yet (0) or when it
      beats the recorded one. */
  function RecordTime(p: UserProgress, time: int): (r: UserProgress)
    ensures r == p.(bestTime := r.bestTime)
    ensures r.bestTime == time <==> (p.bestTime == 0 || time < p.bestTime || time == p.bestTime)
    ensures r.bestTime != time ==> r.bestTime == p.bestTime
    ensures DistinctAchievements(p) ==> DistinctAchievements(r)
  {
    if p.bestTime == 0 || time < p.bestTime then p.(bestTime := time) else p
  }

  /** Once a best time is recorded it never gets worse. */
  lemma BestTimeNeverIncreases(p: UserProgress, time: int)
    requires p.bestTime != 0
    ensures RecordTime(p, time).bestTime <= p.bestTime
    ensures RecordTime(p, time).bestTime == if time < p.bestTime then time else p.bestTime
  {
  }

  /** `shouldLevelUp`: the total reaches 1000 points per current level. */
  predicate ShouldLevelUp(p: UserProgress) {
    p.totalScore >= p.currentLevel * 1000
  }

  /** `currentLevelProgress`: the fraction of the current 1000-point band
      the total score has covered. */
  function CurrentLevelProgress(p: UserProgress): (f: real)
    ensures f * 1000.0 == (p.totalScore - (p.currentLevel - 1) * 1000) as real
  {
    var baseScore := (p.currentLevel - 1) * 1000;
    var nextLevelScore := p.currentLevel * 1000;
    (p.totalScore - baseScore) as real / (nextLevelScore - baseScore) as real
  }

  /** The player is due a level exactly when the band is full. */
  lemma ShouldLevelUpWhenBandFull(p: UserProgress)
    ensures ShouldLevelUp(p) <==> CurrentLevelProgress(p) >= 1.0
  {
    var f := CurrentLevelProgress(p);
    assert f * 1000.0 == (p.totalScore - (p.currentLevel - 1) * 1000) as real;
  }

  /** `levelUp`: one level up when due, otherwise no change. */
  function LevelUp(p: UserProgress): (r: UserProgress)
    ensures ShouldLevelUp(p) ==> r.currentLevel == p.currentLevel + 1
    ensures !ShouldLevelUp(p) ==> r == p
    ensures r == p.(currentLevel := r.currentLevel)
    ensures DistinctAchievements(p) ==> DistinctAchievements(r)
  {
    if ShouldLevelUp(p) then p.(currentLevel := p.currentLevel + 1) else p
  }
}

/** The player's settings and progress holder (Services/UserService.swift):
    the difficulty tables, the avatar and name rules, and the forwarding of
    progress updates, including the leaderboard submission that follows a
    score update. Persistence to `UserDefaults` is not modelled: each stored
    value is a plain field. Times are in tenths of a second and score
    multipliers in halves. */
module Users {
  import opened Text
  import Stars
  import Progress
  import Leaderboard

  datatype GameDifficulty = Easy | Normal | Hard | Expert

  /** The position of a difficulty in `allCases`. */
  function Rank(d: GameDifficulty): (n: nat)
    ensures n < 4
  {
    match d
    case Easy => 0
    case Normal => 1
    case Hard => 2
    case Expert => 3
  }

  function DisplayName(d: GameDifficulty): (s: string)
    ensures |s| >= 4
  {
    match d
    case Easy => "Easy"
    case Normal => "Normal"
    case Hard => "Hard"
    case Expert => "Expert"
  }

  /** `timeLimit` in tenths of a second (120, 90, 60 and 45 seconds). */
  function TimeLimit(d: GameDifficulty): (t: int)
    ensures t > 0 && t % 10 == 0
  {
    match d
    case Easy => 1200
    case Normal => 900
    case Hard => 600
    case Expert => 450
  }

  /** `scoreMultiplier` in halves (1.0, 1.5, 2.0 and 3.0). */
  function MultiplierHalves(d: GameDifficulty): (h: int)
    ensures h >= 2
  {
    match d
    case Easy => 2
    case Normal => 3
    case Hard => 4
    case Expert => 6
  }

  /** `starsCount`: how many stars a level lays out. */
  function StarsCount(d: GameDifficulty): (n: int)
    ensures n >= 5
  {
    match d
    case Easy => 5
    case Normal => 7
    case Hard => 9
    case Expert => 12
  }

  /** A harder setting always means less time, a larger multiplier and more
      stars. */
  lemma TablesFollowDifficulty(a: GameDifficulty, b: GameDifficulty)
    requires Rank(a) < Rank(b)
    ensures TimeLimit(a) > TimeLimit(b)
    ensures MultiplierHalves(a) < MultiplierHalves(b)
    ensures StarsCount(a) < StarsCount(b)
  {
  }

  /** `StarAvatar`. */
  datatype StarAvatar = StarAvatar(id: string, name: string, constellation: Stars.ConstellationType, isUnlocked: bool)

  /** Whether the player may pick the avatar `id`. */
  predicate Selectable(unlocked: set<string>, id: string) {
    id in unlocked || id == Progress.DefaultAvatar
  }

  /** The avatar entry for each constellation in `cs`, in order. */
  function AvatarsFor(cs: seq<Stars.ConstellationType>, unlocked: set<string>): (r: seq<StarAvatar>)
    ensures |r| == |cs|
    ensures forall i :: 0 <= i < |r| ==>
      && r[i].constellation == cs[i]
      && r[i].id == Progress.AvatarId(cs[i]) && r[i].name == Stars.RawValue(cs[i])
      && (r[i].isUnlocked <==> Selectable(unlocked, r[i].id))
  {
    if cs == [] then [] else
      var id := Progress.AvatarId(cs[0]);
      [StarAvatar(id, Stars.RawValue(cs[0]), cs[0], id in unlocked || id == Progress.DefaultAvatar)]
        + AvatarsFor(cs[1..], unlocked)
  }

  /** `getAvailableAvatars`: one entry per constellation in `allCases` order. */
  function AvailableAvatars(unlocked: set<string>): (r: seq<StarAvatar>)
    ensures |r| == 20
    ensures forall i :: 0 <= i < 20 ==>
      && r[i].constellation == Stars.AllCases()[i]
      && r[i].id == Progress.AvatarId(Stars.AllCases()[i])
      && r[i].name == Stars.RawValue(Stars.AllCases()[i])
      && (r[i].isUnlocked <==> Selectable(unlocked, r[i].id))
  {
    AvatarsFor(Stars.AllCases(), unlocked)
  }

  /** The first avatar, Ursa Major's, is available from the start. */
  lemma UrsaAvatarAlwaysUnlocked(unlocked: set<string>)
    ensures AvailableAvatars(unlocked)[0].isUnlocked
  {
    Progress.DefaultAvatarIsUrsa();
    assert Stars.AllCases()[0] == Stars.Ursa;
  }

  /** Completing a constellation unlocks its avatar. */
  lemma CompletionUnlocksAvatar(p: Progress.UserProgress, c: Stars.ConstellationType)
    ensures AvailableAvatars(Progress.CompleteConstellation(p, c).unlockedAvatars)[Stars.Index(c)].isUnlocked
  {
    Stars.IndexLocates(c);
    var unlocked := Progress.CompleteConstellation(p, c).unlockedAvatars;
    assert Progress.AvatarId(c) in unlocked;
    assert AvailableAvatars(unlocked)[Stars.Index(c)].id == Progress.AvatarId(c);
  }

  /** `updatePlayerName`: an empty name falls back to "Player". */
  function ChosenName(name: string): (r: string)
    ensures r != []
    ensures name != [] ==> r == name
  {
    if name == [] then "Player" else name
  }

  /** `UserSettings`: what `saveSettings` stores. */
  datatype UserSettings = UserSettings(selectedAvatar: string, playerName: string,
    soundEnabled: bool, musicEnabled: bool, hapticEnabled: bool, difficulty: GameDifficulty)

  class UserService {
    var userProgress: Progress.UserProgress
    var selectedAvatar: string
    var playerName: string
    var soundEnabled: bool
    var musicEnabled: bool
    var hapticEnabled: bool
    var difficulty: GameDifficulty
    /** `LeaderboardService.shared`. */
    const leaderboard: Leaderboard.LeaderboardService

    /** The settings as `saveSettings` packs them. */
    function Settings(): UserSettings
      reads this
    {
      UserSettings(selectedAvatar, playerName, soundEnabled, musicEnabled, hapticEnabled, difficulty)
    }

    /** The leaderboard entry `updateScore` builds for `score`. */
    function EntryFor(score: int): Leaderboard.Entry
      reads this
    {
      Leaderboard.Entry(playerName, score, userProgress.currentLevel, |userProgress.completedConstellations|)
    }

    /** The avatar shown is one the player may pick, no achievement is held
        twice and the leaderboard is in order. */
    predicate Valid()
      reads this, leaderboard
    {
      Selectable(userProgress.unlockedAvatars, selectedAvatar)
      && Progress.DistinctAchievements(userProgress)
      && leaderboard.Valid()
    }

    /** `init` with nothing stored: the property defaults. */
    constructor (board: Leaderboard.LeaderboardService)
      requires board.Valid()
      ensures leaderboard == board
      ensures userProgress == Progress.Fresh() && selectedAvatar == Progress.DefaultAvatar
      ensures playerName == "Player" && soundEnabled && musicEnabled && hapticEnabled
      ensures difficulty == Normal
      ensures Valid()
    {
      leaderboard := board;
      userProgress := Progress.Fresh();
      selectedAvatar := Progress.DefaultAvatar;
      playerName := "Player";
      soundEnabled := true;
      musicEnabled := true;
      hapticEnabled := true;
      difficulty := Normal;
    }

    /** `updateScore`: the progress takes the score, then an entry with the
        same score, the player's name, level and completion count goes to
        the global leaderboard. */
    method UpdateScore(score: int)
      requires Valid()
      modifies this, leaderboard
      ensures Valid()
      ensures userProgress == Progress.UpdateScore(old(userProgress), score)
      ensures leaderboard.globalLeaderboard == Leaderboard.Submitted(old(leaderboard.globalLeaderboard), EntryFor(score))
      ensures leaderboard.friendsLeaderboard == old(leaderboard.friendsLeaderboard)
      ensures leaderboard.isLoading == old(leaderboard.isLoading)
      ensures Settings() == old(Settings())
    {
      userProgress := Progress.UpdateScore(userProgress, score);
      leaderboard.SubmitScore(EntryFor(score));
    }

    method CompleteConstellation(c: Stars.ConstellationType)
      requires Valid()
      modifies this
      ensures Valid()
      ensures userProgress == Progress.CompleteConstellation(old(userProgress), c)
      ensures Settings() == old(Settings())
    {
      var before := userProgress;
      userProgress := Progress.CompleteConstellation(userProgress, c);
      assert before.unlockedAvatars <= userProgress.unlockedAvatars;
    }

    method AddStarsMatched(count: int)
      requires Valid()
      modifies this
      ensures Valid()
      ensures userProgress == Progress.AddStarsMatched(old(userProgress), count)
      ensures Settings() == old(Settings())
    {
      userProgress := Progress.AddStarsMatched(userProgress, count);
    }

    method RecordPerfectGame()
      requires Valid()
      modifies this
      ensures Valid()
      ensures userProgress == Progress.RecordPerfectGame(old(userProgress))
      ensures Settings() == old(Settings())
    {
      userProgress := Progress.RecordPerfectGame(userProgress);
    }

    /** `recordTime`, with the time in tenths of a second. */
    method RecordTime(time: int)
      requires Valid()
      modifies this
      ensures Valid()
      ensures userProgress == Progress.RecordTime(old(userProgress), time)
      ensures Settings() == old(Settings())
    {
      userProgress := Progress.RecordTime(userProgress, time);
    }

    method ResetStreak()
      requires Valid()
      modifies this
      ensures Valid()
      ensures userProgress == Progress.ResetStreak(old(userProgress))
      ensures Settings() == old(Settings())
    {
      userProgress := Progress.ResetStreak(userProgress);
    }

    /** `levelUp`: the progress moves up a level only when it is due. */
    method LevelUp()
      requires Valid()
      modifies this
      ensures Valid()
      ensures Progress.ShouldLevelUp(old(userProgress)) ==>
        userProgress == old(userProgress).(currentLevel := old(userProgress).currentLevel + 1)
      ensures !Progress.ShouldLevelUp(old(userProgress)) ==> userProgress == old(userProgress)
      ensures userProgress == Progress.LevelUp(old(userProgress))
      ensures Settings() == old(Settings())
    {
      if Progress.ShouldLevelUp(userProgress) {
        userProgress := Progress.LevelUp(userProgress);
      }
    }

    /** `updatePlayerName`. */
    method UpdatePlayerName(name: string)
      requires Valid()
      modifies this
      ensures Valid()
      ensures playerName == ChosenName(name)
      ensures Settings() == old(Settings()).(playerName := ChosenName(name))
      ensures userProgress == old(userProgress)
    {
      playerName := if name == [] then "Player" else name;
    }

    /** `updateAvatar`: only an unlocked avatar or the default one is taken;
        any other id leaves everything as it was. */
    method UpdateAvatar(avatarId: string)
      requires Valid()
      modifies this
      ensures Valid()
      ensures Selectable(userProgress.unlockedAvatars, avatarId) ==> selectedAvatar == avatarId
      ensures !Selectable(userProgress.unlockedAvatars, avatarId) ==> selectedAvatar == old(selectedAvatar)
      ensures Settings() == old(Settings()).(selectedAvatar := selectedAvatar)
      ensures userProgress == old(userProgress)
    {
      if avatarId in userProgress.unlockedAvatars || avatarId == Progress.DefaultAvatar {
        selectedAvatar := avatarId;
      }
    }

    method UpdateSoundSettings(sound: bool, music: bool, haptic: bool)
      requires Valid()
      modifies this
      ensures Valid()
      ensures Settings() == old(Settings()).(soundEnabled := sound, musicEnabled := music, hapticEnabled := haptic)
      ensures userProgress == old(userProgress)
    {
      soundEnabled := sound;
      musicEnabled := music;
      hapticEnabled := haptic;
    }

    method UpdateDifficulty(newDifficulty: GameDifficulty)
      requires Valid()
      modifies this
      ensures Valid()
      ensures Settings() == old(Settings()).(difficulty := newDifficulty)
      ensures userProgress == old(userProgress)
    {
      difficulty := newDifficulty;
    }

    /** `resetProgress`: a fresh record and the default avatar; the name,
        sound settings and difficulty stay. */
    method ResetProgress()
      requires Valid()
      modifies this
      ensures Valid()
      ensures userProgress == Progress.Fresh()
      ensures Settings() == old(Settings()).(selectedAvatar := Progress.DefaultAvatar)
    {
      userProgress := Progress.Fresh();
      selectedAvatar := Progress.DefaultAvatar;
    }

    /** `getAvailableAvatars` on the current progress. */
    function GetAvailableAvatars(): (r: seq<StarAvatar>)
      reads this
      ensures |r| == 20
      ensures forall i :: 0 <= i < 20 ==>
        && r[i].constellation == Stars.AllCases()[i]
        && r[i].id == Progress.AvatarId(Stars.AllCases()[i])
        && (r[i].isUnlocked <==> Selectable(userProgress.unlockedAvatars, r[i].id))
    {
      AvailableAvatars(userProgress.unlockedAvatars)
    }
  }
}

/** `GameViewModel` (ViewModels/GameViewModel.swift) as a class whose fields
    the methods reassign. Each method is tied to the rules of play in
    `Session`: the fields that play touches, read together as
    `Snapshot()`, move exactly as the functions there say, and the lemmas
    about those functions carry over. */
module GameModel {
  import opened Wrappers
  import Stars
  import Users
  import Progress
  import Leaderboard
  import GameScreen
  import opened Session

  class GameViewModel {
    var stars: seq<Stars.Star>
    var currentConstellation: Stars.ConstellationType
    var gameState: GameState
    var score: int
    /** In tenths of a second. */
    var timeRemaining: int
    var selectedStars: seq<Stars.Star>
    var matchedStars: set<nat>
    var showingEducationalTip: bool
    var level: int
    var combo: int
    /** Whether the repeating 0.1 s game timer is scheduled. */
    var timerActive: bool
    /** Calls to `nextLevel` scheduled by `completeLevel` and not yet run. */
    var pendingNextLevels: nat
    /** The id the next new star receives. */
    var nextId: nat

    const userService: Users.UserService

    /** The fields the rules of play act on. */
    function Snapshot(): Play
      reads this
    {
      Play(stars, selectedStars, matchedStars, score, combo, timeRemaining,
        gameState, timerActive, showingEducationalTip, pendingNextLevels)
    }

    /** The fields only level changes and star generation touch. */
    function Round(): (Stars.ConstellationType, int, nat)
      reads this
    {
      (currentConstellation, level, nextId)
    }

    /** The shared user service is valid. */
    predicate Valid()
      reads this, userService, userService.leaderboard
    {
      userService.Valid()
    }

    /** Ordinary play between moves, as `Session.PlayNormal` defines it. */
    predicate Normal()
      reads this, userService, userService.leaderboard
    {
      Valid() && PlayNormal(Snapshot(), currentConstellation)
    }

    /** The multiplier of the current difficulty, in halves. */
    function Halves(): int
      reads this, userService
    {
      Users.MultiplierHalves(userService.difficulty)
    }

    /** `init` followed by `setupGame`: the first target is a random case,
        here the parameter `initial`. */
    constructor (service: Users.UserService, initial: Stars.ConstellationType)
      requires service.Valid()
      ensures userService == service
      ensures stars == [] && selectedStars == [] && matchedStars == {}
      ensures currentConstellation == initial && gameState == Menu
      ensures score == 0 && combo == 0 && level == 1
      ensures timeRemaining == Users.TimeLimit(service.difficulty)
      ensures !showingEducationalTip && !timerActive && pendingNextLevels == 0 && nextId == 0
      ensures Valid()
    {
      userService := service;
      stars := [];
      gameState := Menu;
      score := 0;
      selectedStars := [];
      matchedStars := {};
      showingEducationalTip := false;
      level := 1;
      combo := 0;
      timerActive := false;
      pendingNextLevels := 0;
      nextId := 0;
      currentConstellation := initial;
      timeRemaining := Users.TimeLimit(service.difficulty);
    }

    /** `startGame`: a fresh session on a new field, timer running; the
        target constellation, the tip flag and scheduled level changes are
        left as they were. */
    method StartGame(draws: Draws)
      requires Valid()
      requires DrawsFit(draws, Users.StarsCount(userService.difficulty), currentConstellation)
      modifies this
      ensures Snapshot() == Play(stars, [], {}, 0, 0, Users.TimeLimit(userService.difficulty),
        Playing, true, old(showingEducationalTip), old(pendingNextLevels))
      ensures Round() == (old(currentConstellation), 1, old(nextId) + Users.StarsCount(userService.difficulty))
      ensures multiset(stars) == multiset(Layout(currentConstellation, old(nextId), draws,
        Users.StarsCount(userService.difficulty)))
      ensures Normal()
    {
      BeginSession();
      GenerateStars(draws);
      StartTimer();
      NewFieldIsNormal(Snapshot(), currentConstellation, old(nextId), Users.StarsCount(userService.difficulty));
    }

    /** The resets at the head of `startGame`. */
    method BeginSession()
      modifies this
      ensures Snapshot() == old(Snapshot()).(selected := [], matched := {}, score := 0, combo := 0,
        time := Users.TimeLimit(userService.difficulty), state := Playing)
      ensures Round() == (old(currentConstellation), 1, old(nextId))
    {
      gameState := Playing;
      score := 0;
      combo := 0;
      level := 1;
      timeRemaining := Users.TimeLimit(userService.difficulty);
      matchedStars := {};
      selectedStars := [];
    }

    /** `startTimer`: the 0.1 s game timer is (re)scheduled. */
    method StartTimer()
      modifies this
      ensures Snapshot() == old(Snapshot()).(timerActive := true)
      ensures Round() == old(Round())
    {
      timerActive := true;
    }

    /** `pauseGame`: unguarded; the state becomes `.paused` and the timer
        stops. */
    method PauseGame()
      modifies this
      ensures Snapshot() == old(Snapshot()).(state := Paused, timerActive := false)
      ensures Round() == old(Round())
      ensures old(Normal()) ==> Normal()
    {
      gameState := Paused;
      timerActive := false;
    }

    /** `resumeGame`: unguarded; the state becomes `.playing` and a timer is
        started whatever the state was, a finished game included. */
    method ResumeGame()
      modifies this
      ensures Snapshot() == old(Snapshot()).(state := Playing, timerActive := true)
      ensures Round() == old(Round())
      ensures old(Normal()) ==> Normal()
    {
      gameState := Playing;
      StartTimer();
    }

    /** `endGame`: the timer stops and the session is reported to the user
        service: the score (with a leaderboard entry), the matched count,
        a perfect game or a lost streak, the elapsed time and a level-up
        check. (`Session.NormalEndGameIsNeverPerfect`: from ordinary play
        the streak is always lost.) */
    method EndGame()
      requires Valid()
      modifies this, userService, userService.leaderboard
      ensures Valid()
      ensures Snapshot() == old(Snapshot()).(state := GameOver, timerActive := false)
      ensures Round() == old(Round())
      ensures userService.userProgress == EndGameProgress(old(userService.userProgress), score,
        |matchedStars|, |stars|, currentConstellation, Users.TimeLimit(userService.difficulty) - timeRemaining)
      ensures userService.leaderboard.globalLeaderboard == Leaderboard.Submitted(
        old(userService.leaderboard.globalLeaderboard), old(userService.EntryFor(score)))
      ensures userService.leaderboard.friendsLeaderboard == old(userService.leaderboard.friendsLeaderboard)
      ensures userService.Settings() == old(userService.Settings())
    {
      var finalScore, matchedCount, total := score, |matchedStars|, |stars|;
      var elapsed := Users.TimeLimit(userService.difficulty) - timeRemaining;
      StopGame();
      ReportSession(finalScore, matchedCount, total, currentConstellation, elapsed);
    }

    /** The head of `endGame`: the state becomes `.gameOver` and the timers
        are invalidated. */
    method StopGame()
      modifies this
      ensures Snapshot() == old(Snapshot()).(state := GameOver, timerActive := false)
      ensures Round() == old(Round())
    {
      gameState := GameOver;
      timerActive := false;
    }

    /** The user-service calls of `endGame`, in the source's order, on the
        values the session ended with. */
    method ReportSession(finalScore: int, matchedCount: int, total: int,
                         c: Stars.ConstellationType, elapsed: int)
      requires userService.Valid()
      modifies userService, userService.leaderboard
      ensures userService.Valid()
      ensures userService.userProgress == EndGameProgress(old(userService.userProgress), finalScore,
        matchedCount, total, c, elapsed)
      ensures userService.leaderboard.globalLeaderboard == Leaderboard.Submitted(
        old(userService.leaderboard.globalLeaderboard), old(userService.EntryFor(finalScore)))
      ensures userService.leaderboard.friendsLeaderboard == old(userService.leaderboard.friendsLeaderboard)
      ensures userService.Settings() == old(userService.Settings())
      ensures unchanged(this)
    {
      ReportScore(finalScore, matchedCount);
      ReportOutcome(matchedCount == total, c);
      ReportTime(elapsed);
    }

    /** `updateScore` then `addStarsMatched`. */
    method ReportScore(finalScore: int, matchedCount: int)
      requires userService.Valid()
      modifies userService, userService.leaderboard
      ensures userService.Valid()
      ensures userService.userProgress == Progress.AddStarsMatched(
        Progress.UpdateScore(old(userService.userProgress), finalScore), matchedCount)
      ensures userService.leaderboard.globalLeaderboard == Leaderboard.Submitted(
        old(userService.leaderboard.globalLeaderboard), old(userService.EntryFor(finalScore)))
      ensures userService.leaderboard.friendsLeaderboard == old(userService.leaderboard.friendsLeaderboard)
      ensures userService.Settings() == old(userService.Settings())
    {
      userService.UpdateScore(finalScore);
      userService.AddStarsMatched(matchedCount);
    }

    /** The perfect-game branch of `endGame` or its streak reset. */
    method ReportOutcome(perfect: bool, c: Stars.ConstellationType)
      requires userService.Valid()
      modifies userService
      ensures userService.Valid()
      ensures userService.userProgress == if perfect
        then Progress.CompleteConstellation(Progress.RecordPerfectGame(old(userService.userProgress)), c)
        else Progress.ResetStreak(old(userService.userProgress))
      ensures userService.Settings() == old(userService.Settings())
      ensures unchanged(userService.leaderboard)
    {
      if perfect {
        userService.RecordPerfectGame();
        userService.CompleteConstellation(c);
      } else {
        userService.ResetStreak();
      }
    }

    /** `recordTime` then `levelUp`. */
    method ReportTime(elapsed: int)
      requires userService.Valid()
      modifies userService
      ensures userService.Valid()
      ensures userService.userProgress == Progress.LevelUp(Progress.RecordTime(old(userService.userProgress), elapsed))
      ensures userService.Settings() == old(userService.Settings())
      ensures unchanged(userService.leaderboard)
    {
      userService.RecordTime(elapsed);
      userService.LevelUp();
    }

    /** `selectStar`: outside `.playing`, or for a star not on the field,
        nothing happens; otherwise its flag flips, the selection follows and
        `checkForMatch` runs. Matched stars are not refused. From ordinary
        play the result is ordinary play again, and the level is never
        completed on the way. */
    method SelectStar(star: Stars.Star)
      requires Valid()
      modifies this
      ensures Valid()
      ensures Snapshot() == SelectStep(old(Snapshot()), star.id, currentConstellation, Halves())
      ensures Round() == old(Round())
      ensures old(Normal()) ==> Normal() && SameControl(Snapshot(), old(Snapshot()))
    {
      ghost var before := Snapshot();
      if Normal() {
        SelectStepKeepsNormal(before, star.id, currentConstellation, Halves());
      }
      if gameState != Playing {
        return;
      }
      match IndexOfId(stars, star.id) {
        case None =>
        case Some(index) =>
          stars := stars[index := stars[index].(isSelected := !stars[index].isSelected)];
          if stars[index].isSelected {
            selectedStars := selectedStars + [stars[index]];
          } else {
            selectedStars := RemoveId(selectedStars, star.id);
          }
          assert Snapshot() == Toggled(before, index, star.id);
          CheckForMatch();
      }
    }

    /** `checkForMatch`, with `calculateScore(for:)` as `MatchScore` on the
        combo before it grows. */
    method CheckForMatch()
      modifies this
      ensures Snapshot() == MatchStep(old(Snapshot()), currentConstellation, Halves())
      ensures Round() == old(Round())
    {
      if |selectedStars| < 3 {
        return;
      }
      ghost var before := Snapshot();
      var constellationStars := GameScreen.OfType(selectedStars, currentConstellation);
      if |constellationStars| >= 3 {
        score := score + MatchScore(|constellationStars|, combo, Halves());
        combo := combo + 1;
        InsertMatched(constellationStars);
        assert Snapshot() == Scored(before, constellationStars, Halves());
        ClearSelection();
        if |matchedStars| == |stars| {
          CompleteLevel();
        }
      } else {
        if combo > 0 {
          combo := 0;
          score := Penalized(score);
        }
        ClearSelection();
      }
    }

    /** The `for star in constellationStars` loop of `checkForMatch`: each
        id is inserted into `matchedStars`. */
    method InsertMatched(cs: seq<Stars.Star>)
      modifies this
      ensures Snapshot() == old(Snapshot()).(matched := old(matchedStars) + IdsOf(cs))
      ensures Round() == old(Round())
    {
      var k := 0;
      while k < |cs|
        invariant 0 <= k <= |cs|
        invariant Snapshot() == old(Snapshot()).(matched := old(matchedStars) + IdsOf(cs[..k]))
        invariant Round() == old(Round())
      {
        IdsOfAppend(cs[..k], [cs[k]]);
        assert cs[..k + 1] == cs[..k] + [cs[k]];
        assert IdsOf([cs[k]]) == {cs[k].id} by {
          assert [cs[k]][1..] == [];
        }
        matchedStars := matchedStars + {cs[k].id};
        k := k + 1;
      }
      assert cs[..k] == cs;
    }

    /** `clearSelection`: the selection empties and every flag goes down,
        one star at a time. */
    method ClearSelection()
      modifies this
      ensures Snapshot() == ClearedPlay(old(Snapshot()))
      ensures Round() == old(Round())
    {
      selectedStars := [];
      var i := 0;
      while i < |stars|
        invariant 0 <= i <= |stars| == |old(stars)|
        invariant forall j :: 0 <= j < i ==> stars[j] == old(stars)[j].(isSelected := false)
        invariant forall j :: i <= j < |stars| ==> stars[j] == old(stars)[j]
        invariant Snapshot() == old(Snapshot()).(stars := stars, selected := [])
        invariant Round() == old(Round())
      {
        stars := stars[i := stars[i].(isSelected := false)];
        i := i + 1;
      }
      assert stars == Unselected(old(stars));
    }

    /** `completeLevel`: the timer stops, the tip shows, the remaining time
        in tenths (`Int(timeRemaining * 10)`) is added as a bonus and a
        `nextLevel` is scheduled. */
    method CompleteLevel()
      modifies this
      ensures Snapshot() == CompletedPlay(old(Snapshot()))
      ensures Round() == old(Round())
    {
      gameState := Completed;
      timerActive := false;
      showingEducationalTip := true;
      score := score + timeRemaining;
      pendingNextLevels := pendingNextLevels + 1;
    }

    /** `nextLevel`, run when a scheduled call comes due: one level up, the
        next constellation in `allCases` order (wrapping after the
        twentieth) on a new field, a full clock and a running timer, with
        score and combo carried over. */
    method NextLevel(draws: Draws)
      requires Valid() && pendingNextLevels > 0
      requires DrawsFit(draws, Users.StarsCount(userService.difficulty), Stars.NextConstellation(currentConstellation))
      modifies this
      ensures Valid()
      ensures Snapshot() == Play(stars, [], {}, old(score), old(combo), Users.TimeLimit(userService.difficulty),
        Playing, true, false, old(pendingNextLevels) - 1)
      ensures Round() == (Stars.NextConstellation(old(currentConstellation)), old(level) + 1,
        old(nextId) + Users.StarsCount(userService.difficulty))
      ensures multiset(stars) == multiset(Layout(currentConstellation, old(nextId), draws,
        Users.StarsCount(userService.difficulty)))
      ensures old(score) >= 0 && old(combo) >= 0 ==> Normal()
    {
      AdvanceLevel();
      GenerateStars(draws);
      gameState := Playing;
      StartTimer();
      if old(score) >= 0 && old(combo) >= 0 {
        NewFieldIsNormal(Snapshot(), currentConstellation, old(nextId), Users.StarsCount(userService.difficulty));
      }
    }

    /** The resets at the head of `nextLevel`, with the scheduled call
        taken off the queue. */
    method AdvanceLevel()
      requires pendingNextLevels > 0
      modifies this
      ensures Snapshot() == old(Snapshot()).(selected := [], matched := {},
        time := Users.TimeLimit(userService.difficulty), showingTip := false, pending := old(pendingNextLevels) - 1)
      ensures Round() == (Stars.NextConstellation(old(currentConstellation)), old(level) + 1, old(nextId))
    {
      pendingNextLevels := pendingNextLevels - 1;
      level := level + 1;
      showingEducationalTip := false;
      currentConstellation := Stars.NextConstellation(currentConstellation);
      matchedStars := {};
      selectedStars := [];
      timeRemaining := Users.TimeLimit(userService.difficulty);
    }

    /** `generateStars`: `max(3, n / 2)` target stars, then decoys drawn
        from the other constellations, then a shuffle. The result is a
        permutation of `Layout`, a `NewField` with distinct ids. */
    method GenerateStars(draws: Draws)
      requires DrawsFit(draws, Users.StarsCount(userService.difficulty), currentConstellation)
      modifies this
      ensures Snapshot() == old(Snapshot()).(stars := stars)
      ensures Round() == (old(currentConstellation), old(level), old(nextId) + Users.StarsCount(userService.difficulty))
      ensures multiset(stars) == multiset(Layout(currentConstellation, old(nextId), draws,
        Users.StarsCount(userService.difficulty)))
      ensures NewField(stars, currentConstellation, old(nextId), Users.StarsCount(userService.difficulty))
      ensures DistinctIds(stars)
    {
      var n := Users.StarsCount(userService.difficulty);
      var generated := BuildLayout(currentConstellation, nextId, draws, n);
      var shuffled := Shuffle(generated, draws.picks);
      LayoutPermutationFacts(shuffled, currentConstellation, nextId, draws, n);
      stars := shuffled;
      nextId := nextId + n;
    }

    /** One firing of the 0.1 s game timer: a tenth of a second goes, and
        the game ends (as `EndGame` says) once none is left. */
    method Tick()
      requires Valid() && timerActive
      modifies this, userService, userService.leaderboard
      ensures Valid()
      ensures Round() == old(Round())
      ensures old(timeRemaining) > 1 ==>
        Snapshot() == old(Snapshot()).(time := old(timeRemaining) - 1)
        && unchanged(userService, userService.leaderboard)
      ensures old(timeRemaining) <= 1 ==>
        Snapshot() == old(Snapshot()).(time := old(timeRemaining) - 1, state := GameOver, timerActive := false)
      ensures userService.Settings() == old(userService.Settings())
    {
      timeRemaining := timeRemaining - 1;
      if timeRemaining <= 0 {
        EndGame();
      }
    }

    /** `resetGame`: back to the menu with a full clock, Ursa Major as the
        target and level 1. The star list is kept as it was (flags
        included) and an already scheduled `nextLevel` is not cancelled. */
    method ResetGame()
      modifies this
      ensures Snapshot() == Play(old(stars), [], {}, 0, 0, Users.TimeLimit(userService.difficulty),
        Menu, false, false, old(pendingNextLevels))
      ensures Round() == (Stars.Ursa, 1, old(nextId))
    {
      gameState := Menu;
      timerActive := false;
      score := 0;
      level := 1;
      combo := 0;
      timeRemaining := Users.TimeLimit(userService.difficulty);
      matchedStars := {};
      selectedStars := [];
      showingEducationalTip := false;
      currentConstellation := Stars.Ursa;
    }

    /** `startTutorial`: the fixed seven-star field with Ursa Major as the
        target. Nothing else is reset: a running timer keeps running and a
        previous selection, matched set and score stay. */
    method StartTutorial()
      modifies this
      ensures Snapshot() == old(Snapshot()).(stars := TutorialLayout(old(nextId)), state := Tutorial)
      ensures Round() == (Stars.Ursa, old(level), old(nextId) + 7)
      ensures old(Valid()) ==> Valid()
      ensures (old(Valid()) && old(selectedStars) == [] && old(matchedStars) == {}
        && old(score) >= 0 && old(combo) >= 0) ==> Normal()
    {
      gameState := Tutorial;
      GenerateTutorialStars();
      TutorialFacts(old(nextId));
      if old(selectedStars) == [] {
        assert IdsOf(selectedStars) == {};
        assert stars[4].constellationType != currentConstellation;
      }
    }

    /** `generateTutorialStars`: the seven tutorial positions in order, the
        first four tagged Ursa Major and the rest Orion. */
    method GenerateTutorialStars()
      modifies this
      ensures Snapshot() == old(Snapshot()).(stars := TutorialLayout(old(nextId)))
      ensures Round() == (Stars.Ursa, old(level), old(nextId) + 7)
    {
      currentConstellation := Stars.Ursa;
      var positions := TutorialPositions();
      var generated: seq<Stars.Star> := [];
      var id := nextId;
      var index := 0;
      while index < |positions|
        invariant 0 <= index <= |positions|
        invariant generated == TutorialLayout(nextId)[..index] && id == nextId + index
      {
        var constellation := if index < 4 then Stars.Ursa else Stars.Orion;
        generated := generated + [Stars.NewStar(id, positions[index], constellation)];
        id := id + 1;
        index := index + 1;
      }
      assert generated == TutorialLayout(nextId);
      stars := generated;
      nextId := id;
    }

    /** `completeTutorial`: the same end state as `resetGame`. */
    method CompleteTutorial()
      modifies this
      ensures Snapshot() == Play(old(stars), [], {}, 0, 0, Users.TimeLimit(userService.difficulty),
        Menu, false, false, old(pendingNextLevels))
      ensures Round() == (Stars.Ursa, 1, old(nextId))
    {
      gameState := Menu;
      ResetGame();
    }
  }
}

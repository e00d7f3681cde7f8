# StarMatch game core in Dafny

This project models the rules of StarMatch (the DFVul1 iOS app), a game in
which the player finds the stars of a target constellation among decoys,
and proves properties of that model. It covers:

- the session engine `GameViewModel`: start, pause, resume and end a game;
  select stars; check a match and score it; complete a level; advance to
  the next level; lay out the stars; the tutorial; and the game timer;
- the constellation catalogue, `Constellation.init` and the integer part of
  `Color(hex:)` in `Star.swift`;
- the player record `UserProgress`, with its counters and its once-only
  achievements;
- `UserService`: the difficulty tables, avatar and name rules, and the
  forwarding of progress updates, including the leaderboard submission;
- `LeaderboardService`: the global board (sorted, at most 100 entries), the
  friends board and the rank queries;
- the onboarding step machine of `OnboardingViewModel`;
- the filter and sort of the constellation guide, its difficulty badge and
  its difficulty label;
- the `m:ss` clock label and the two star totals on the play screen.

Conventions of the model:

- Time is counted in whole tenths of a second. The timer subtracts 0.1 s
  per tick and the level bonus is `Int(timeRemaining * 10)`, so with tenths
  every step is exact.
- The difficulty multiplier is counted in halves: 2, 3, 4 and 6 stand for
  1.0, 1.5, 2.0 and 3.0.
- The repeating game timer is a `timerActive` flag plus an explicit `Tick`
  method.
- The `nextLevel` call that `completeLevel` schedules three seconds later is
  a counter `pendingNextLevels` plus an explicit `NextLevel` method.
- Random positions, brightness values, decoy constellations and shuffle
  swaps arrive as a `Draws` value.
- A star's UUID is a number taken from a counter `nextId`.
- `UserProgress` is a Swift struct (a value), so it is a datatype, and each
  `mutating func` is a function from the old value to the new one.
- The view model, the user service, the leaderboard service and the
  onboarding view model are objects updated in place, so each is a class
  whose methods state their whole new state.

Modules:

| file | module | models |
|---|---|---|
| wrappers.dfy | `Wrappers` | Swift optionals |
| seqs.dfy | `Seqs` | lists without repeats, `firstIndex(of:)` |
| text.dfy | `Text` | ASCII lower-casing, character replacement, substring search, string order, `%d` |
| stars.dfy | `Stars` | `Star.swift`: cases, raw values, difficulty, patterns, `Star`, `Constellation.init` |
| color.dfy | `HexColor` | `Color(hex:)` before the division by 255 |
| progress.dfy | `Progress` | `UserProgress.swift` |
| leaderboard.dfy | `Leaderboard` | `LeaderboardService.swift` |
| userservice.dfy | `Users` | `UserService.swift` |
| onboarding.dfy | `Onboarding` | `OnboardingViewModel.swift` |
| guide.dfy | `Guide` | `ConstellationGuideView.swift`: filter, sort, badge, label |
| gameview.dfy | `GameScreen` | `GameView.swift`: clock label and star totals |
| session.dfy | `Session` | the rules of play of `GameViewModel.swift` as functions on a `Play` state |
| gameviewmodel.dfy | `GameModel` | the `GameViewModel` class, each method tied to `Session` |

The main results:

- **The completion test never fires in ordinary play.** Only stars of the
  current constellation ever join `matchedStars`. Every difficulty puts
  fewer target stars than stars on the field. So the test
  `matchedStars.count == stars.count` never holds in ordinary play, and
  neither does the "Perfect Game" test of the game-over screen
  (`Session.NormalPlayNeverComplete`, `Session.HitOutcome`).
- **Ending a game always takes the streak-reset branch.** From ordinary
  play, `endGame` always resets the streak. It never records a perfect game
  or a completed constellation (`Session.NormalEndGameIsNeverPerfect`).

Where the written description of the game differs from the code, the model
follows the code:

- `selectStar` does not refuse a star that is already matched. Only the
  view disables such a star.
- `pauseGame` and `resumeGame` have no state guard. A resumed game that had
  run out restarts the timer with no time left (`GameModel.GameViewModel.ResumeGame`).
- `resetGame` keeps the star list, flags included, and does not cancel a
  scheduled `nextLevel`.
- `startTutorial` resets nothing but the stars, the target and the state.
- `nextLevel` keeps the score and the combo.

## Model

| member | source | states |
|---|---|---|
| Seqs.FirstIndexOf | DFVul1/ViewModels/GameViewModel.swift:204 | `firstIndex(of:)` gives the position of the first occurrence, and gives none exactly when the element is absent |
| Seqs.FirstIndexOfDistinct | DFVul1/ViewModels/GameViewModel.swift:204 | in a list without repeats, `firstIndex(of:)` of the element at `i` is `i` |
| Stars.AllCases | DFVul1/Models/Star.swift:19-39 | `allCases` has twenty entries |
| Stars.IndexLocates | DFVul1/Models/Star.swift:19-39 | each case sits in `allCases` at its declaration position |
| Stars.AllCasesEnumerates | DFVul1/Models/Star.swift:19-39 | every case is in `allCases`, and no two positions hold the same case |
| Stars.IndexOfCase | DFVul1/Models/Star.swift:19-39 | the declaration position of the case at position `i` is `i` |
| Stars.RawValue | DFVul1/Models/Star.swift:20-39 | every raw value (display name) is non-empty |
| Stars.FromRawValue | DFVul1/Models/Star.swift:19-39 | `init(rawValue:)` only returns a case whose display name is the given string |
| Stars.RawValueRoundTrip | DFVul1/Models/Star.swift:19-39 | decoding a case's display name gives back that case |
| Stars.RawValueInjective | DFVul1/Models/Star.swift:20-39 | two cases with the same display name are the same case |
| Stars.Difficulty | DFVul1/Models/Star.swift:380-387 | the difficulty tier is always in 1..4 |
| Stars.Pattern | DFVul1/Models/Star.swift:66-262 | every pattern has 4 to 8 points and starts at offset (0,0) |
| Stars.NewStar | DFVul1/Models/Star.swift:11-17 | a new star has the given id, position and type, and is neither matched nor selected; its brightness defaults to 1.0 |
| Stars.MakeConstellation | DFVul1/Models/Star.swift:396-408 | `Constellation.init` gives one new star per pattern offset, each at the centre moved by its offset and of the given type; the constellation is not complete |
| Stars.ConstellationShape | DFVul1/Models/Star.swift:396-408 | a constellation has 4 to 8 stars, the first exactly on the centre, all of its own type and unselected |
| Stars.NextConstellation | DFVul1/ViewModels/GameViewModel.swift:203-207 | the next target is the case one position further on in `allCases`, modulo 20 |
| Stars.FirstIndexOfCase | DFVul1/ViewModels/GameViewModel.swift:203-205 | `allCases.firstIndex(of:)` always finds the current case, at its declaration position |
| Stars.NextConstellationInOrder | DFVul1/ViewModels/GameViewModel.swift:203-207 | the next target is `allCases[(i + 1) % allCases.count]` for the current case's index `i` |
| Stars.ColorHex | DFVul1/Models/Star.swift:41-63 | each constellation's colour is a seven-character `#RRGGBB` string; `HexColor.CatalogueColoursOpaque` proves that each one decodes as opaque |
| Text.LowerChar | DFVul1/Models/UserProgress.swift:61 | lower-casing maps each ASCII capital to its small letter (code + 32) and leaves every other character alone |
| Text.Lowercased | DFVul1/Models/UserProgress.swift:61 | `lowercased()` keeps the length and lower-cases each character |
| Text.ReplaceChar | DFVul1/Models/UserProgress.swift:61 | `replacingOccurrences(of:with:)` for one character keeps the length and replaces exactly the matching characters |
| Text.IsAlphanumeric | DFVul1/Models/Star.swift:413 | `CharacterSet.alphanumerics` on ASCII: the digits and the capital and small letters (a definition, used by `HexColor.Trim`) |
| Text.CaseInsensitiveContains | DFVul1/Views/ConstellationGuideView.swift:19 | `localizedCaseInsensitiveContains` with ASCII folding: an empty needle is never contained, a match is never longer than the text, and a non-empty text contains itself |
| Text.Less | DFVul1/Views/ConstellationGuideView.swift:24 | `<` on `String`: character codes compared position by position, with a proper prefix first (a definition; the next three lemmas give its order laws) |
| Text.LessIrreflexive | DFVul1/Views/ConstellationGuideView.swift:24 | no string sorts before itself |
| Text.LessTransitive | DFVul1/Views/ConstellationGuideView.swift:24 | the order is transitive |
| Text.LessTotal | DFVul1/Views/ConstellationGuideView.swift:24 | of two different strings exactly one sorts first |
| Text.NatToString | DFVul1/Views/GameView.swift:240 | `%d` of a natural number is a non-empty string of digits |
| Text.ParseDigits | DFVul1/Views/GameView.swift:240 | reads a run of decimal digits back as a number: the inverse that `Text.ParseNatToString` pairs with `%d` (a definition) |
| Text.ParseNatToString | DFVul1/Views/GameView.swift:240 | the digits `%d` prints for `n` read back as `n` |
| Text.IntToString | DFVul1/Views/GameView.swift:240 | `%d` of an integer is non-empty and starts with a digit exactly when the number is not negative |
| HexColor.HexDigitValue | DFVul1/Models/Star.swift:415 | a hexadecimal digit is worth less than 16 |
| HexColor.IsHexDigit | DFVul1/Models/Star.swift:415 | the characters `scanHexInt64` accepts: 0-9, a-f and A-F (a definition) |
| HexColor.HexValue | DFVul1/Models/Star.swift:415 | `n` hexadecimal digits denote a number below 16^n |
| HexColor.LeadingCut | DFVul1/Models/Star.swift:413 | the characters trimmed at the front are non-alphanumeric, and the first one kept is alphanumeric |
| HexColor.TrailingCut | DFVul1/Models/Star.swift:413 | the characters trimmed at the back are non-alphanumeric, and the last one kept is alphanumeric |
| HexColor.Trim | DFVul1/Models/Star.swift:413 | trimming keeps a contiguous slice that begins and ends alphanumeric, and removes only non-alphanumeric characters at the two ends |
| HexColor.HexRunLength | DFVul1/Models/Star.swift:415 | the scanned run is the longest prefix made of hexadecimal digits |
| HexColor.ScanHex | DFVul1/Models/Star.swift:415 | `scanHexInt64` on `s` reads a number below 16^\|s\| |
| HexColor.Decode | DFVul1/Models/Star.swift:412-426 | every component is in 0..255; a trimmed length other than 3, 6 or 8 gives (1,1,1,0); lengths 3 and 6 are opaque (alpha 255) |
| HexColor.ByteOf | DFVul1/Models/Star.swift:415-423 | two hexadecimal digits make a byte |
| HexColor.HexValueOfThree | DFVul1/Models/Star.swift:415-419 | three digits are read as a 12-bit number, digit by digit |
| HexColor.HexValueOfSix | DFVul1/Models/Star.swift:415-421 | six digits are read as three bytes |
| HexColor.HexValueOfEight | DFVul1/Models/Star.swift:415-423 | eight digits are read as four bytes |
| HexColor.ScanAllHex | DFVul1/Models/Star.swift:413-415 | a string made only of hexadecimal digits is neither trimmed nor cut short by the scan |
| HexColor.DecodeSixDigits | DFVul1/Models/Star.swift:420-421 | RRGGBB decodes to alpha 255 and one byte per colour, in order |
| HexColor.DecodeEightDigits | DFVul1/Models/Star.swift:422-423 | AARRGGBB decodes to the four bytes in order, alpha first |
| HexColor.DecodeThreeDigits | DFVul1/Models/Star.swift:418-419 | RGB decodes to alpha 255 and each digit times 17 |
| HexColor.HashIsTrimmed | DFVul1/Models/Star.swift:413 | a leading `#` is trimmed away |
| HexColor.CatalogueColoursOpaque | DFVul1/Models/Star.swift:41-63 | every catalogue colour decodes fully opaque |
| Progress.Fresh | DFVul1/Models/UserProgress.swift:11-22 | a fresh record is at level 1 with zero score and no constellations, avatars or achievements |
| Progress.DefaultAvatarIsUrsa | DFVul1/Services/UserService.swift:13 | the default avatar id is the one Ursa Major unlocks |
| Progress.AvatarId | DFVul1/Models/UserProgress.swift:60-62 | the id `unlockAvatar` derives is `avatar_` followed by one character per character of the display name, with no spaces and no capitals |
| Progress.EarnedIgnoresAchievements | DFVul1/Models/UserProgress.swift:65-104 | no achievement threshold looks at the achievement list |
| Progress.HasAchievement | DFVul1/Models/UserProgress.swift:106-108 | `hasAchievement`: some held achievement has the type (a definition; the list holds types, since an `Achievement` is its type plus a UUID and a date) |
| Progress.Earned | DFVul1/Models/UserProgress.swift:65-103 | the eight thresholds of `checkForAchievements`: exactly one constellation, at least five constellations, 1000 and 10000 points, 100 stars matched, a streak of 5, a recorded best time of at most 30 s (300 tenths), 50 games (a definition; `Progress.CheckForAchievements` states what it drives) |
| Progress.AchievementOrderComplete | DFVul1/Models/UserProgress.swift:65-104 | the check goes through all eight achievement types |
| Progress.Award | DFVul1/Models/UserProgress.swift:67-69 | one guarded step only appends; afterwards `t` is held exactly when it was held or its threshold is met; no type is held twice |
| Progress.AwardFrom | DFVul1/Models/UserProgress.swift:65-104 | the remaining guarded steps only append, add exactly the earned types among them, and keep the types distinct |
| Progress.CheckForAchievements | DFVul1/Models/UserProgress.swift:65-104 | only achievements change, by appending; a type is held afterwards iff it was held or its threshold is met; no type is appended twice |
| Progress.CheckForAchievementsIdempotent | DFVul1/Models/UserProgress.swift:65-104 | a second check right after the first changes nothing |
| Progress.UpdateScore | DFVul1/Models/UserProgress.swift:24-31 | the total grows by the score, the high score becomes the larger of the two, one more game is played, and the achievements follow their thresholds |
| Progress.CompleteConstellation | DFVul1/Models/UserProgress.swift:33-37 | the display name joins the completed set, the matching avatar id joins the unlocked set, and the achievements follow their thresholds |
| Progress.AddStarsMatched | DFVul1/Models/UserProgress.swift:39-42 | only the matched-star counter (and the achievements) change |
| Progress.RecordPerfectGame | DFVul1/Models/UserProgress.swift:44-48 | perfect games and the streak each grow by one; nothing else but the achievements changes |
| Progress.ResetStreak | DFVul1/Models/UserProgress.swift:56-58 | only the streak changes, to 0 |
| Progress.RecordTime | DFVul1/Models/UserProgress.swift:50-54 | the best time becomes `t` iff none was recorded or `t` beats it; otherwise it stays |
| Progress.BestTimeNeverIncreases | DFVul1/Models/UserProgress.swift:50-54 | a recorded best time never grows |
| Progress.CurrentLevelProgress | DFVul1/Models/UserProgress.swift:110-116 | the progress is the fraction of the current 1000-point band covered |
| Progress.ShouldLevelUp | DFVul1/Models/UserProgress.swift:118-120 | `shouldLevelUp`: the total score reaches 1000 points per current level (a definition; `Progress.ShouldLevelUpWhenBandFull` relates it to the band fraction) |
| Progress.ShouldLevelUpWhenBandFull | DFVul1/Models/UserProgress.swift:110-120 | a level-up is due exactly when the band is full |
| Progress.LevelUp | DFVul1/Models/UserProgress.swift:118-126 | the level rises by exactly one when due; otherwise nothing changes |
| Leaderboard.InsertByScore | DFVul1/Services/LeaderboardService.swift:26-27 | inserting adds exactly the new entry (as a multiset) |
| Leaderboard.InsertSorted | DFVul1/Services/LeaderboardService.swift:26-27 | inserting into a list in score order keeps it in score order |
| Leaderboard.SortDesc | DFVul1/Services/LeaderboardService.swift:27 | sorting gives a permutation in non-increasing score order |
| Leaderboard.SortDescOfSorted | DFVul1/Services/LeaderboardService.swift:27 | sorting a list already in order changes nothing |
| Leaderboard.AppendThenSort | DFVul1/Services/LeaderboardService.swift:26-27 | appending to an ordered board and sorting equals inserting after every entry with an equal or higher score |
| Leaderboard.Take | DFVul1/Services/LeaderboardService.swift:30-31 | `prefix(n)` is a prefix of length `min(n, count)` |
| Leaderboard.Submitted | DFVul1/Services/LeaderboardService.swift:25-35 | the board after one submission holds `min(count + 1, 100)` entries in score order, all drawn from the old board and the new entry, and below capacity it is exactly the old board plus the entry |
| Leaderboard.TakeSorted | DFVul1/Services/LeaderboardService.swift:30-31 | a prefix of an ordered board is ordered |
| Leaderboard.FirstAtMost | DFVul1/Services/LeaderboardService.swift:66 | the first index with a score at most `s`: every earlier entry scores more; none exactly when all score more |
| Leaderboard.RankIn | DFVul1/Services/LeaderboardService.swift:65-70 | the rank is never nil and lies in 1..count+1 |
| Leaderboard.CountAbove | DFVul1/Services/LeaderboardService.swift:65-70 | the count of higher scores is at most the count of entries |
| Leaderboard.RankCountsHigherScores | DFVul1/Services/LeaderboardService.swift:65-70 | on an ordered board the rank is one more than the number of entries scoring strictly more |
| Leaderboard.RankWhenSorted | DFVul1/Services/LeaderboardService.swift:65-70 | the rank rule for any board: when it is ordered, the rank is one more than the number of higher scores |
| Leaderboard.RemoveKeepsSorted | DFVul1/Services/LeaderboardService.swift:49-53 | removing an entry keeps a board in order |
| Leaderboard.SampleNames | DFVul1/Services/LeaderboardService.swift:109-114 | there are twenty sample player names |
| Leaderboard.FriendNames | DFVul1/Services/LeaderboardService.swift:131 | there are five sample friend names |
| Leaderboard.RandomStems | DFVul1/Services/LeaderboardService.swift:148-152 | there are three name stems for new players |
| Leaderboard.Entries | DFVul1/Services/LeaderboardService.swift:116-124 | one entry per name, in order, carrying its draw's score, level and count |
| Leaderboard.SuffixedNames | DFVul1/Services/LeaderboardService.swift:148-152 | each stem is followed by the decimal digits of its random number |
| Leaderboard.LeaderboardService.constructor | DFVul1/Services/LeaderboardService.swift:20-23 | with nothing stored, both boards hold the sample entries sorted by score |
| Leaderboard.LeaderboardService.SubmitScore | DFVul1/Services/LeaderboardService.swift:25-35 | the new global board is the old one plus the entry, sorted by score and cut to 100; it is in order and has `min(old + 1, 100)` entries; the friends board is untouched |
| Leaderboard.LeaderboardService.AddFriend | DFVul1/Services/LeaderboardService.swift:37-47 | the friends board gains exactly the new entry (with the drawn values) and stays in order; the global board is untouched |
| Leaderboard.LeaderboardService.RemoveFriend | DFVul1/Services/LeaderboardService.swift:49-53 | an index below the count removes exactly that entry; any other index changes nothing |
| Leaderboard.LeaderboardService.RefreshLeaderboard | DFVul1/Services/LeaderboardService.swift:55-57 | loading starts and neither board changes until the delayed refresh fires |
| Leaderboard.LeaderboardService.FinishRefresh | DFVul1/Services/LeaderboardService.swift:58-62 | the delayed closure: three new players, each a stem plus its random suffix, join the global board, which is re-sorted and cut to `min(count + 3, 100)`; loading ends; friends untouched |
| Leaderboard.LeaderboardService.GetPlayerRank | DFVul1/Services/LeaderboardService.swift:65-70 | never nil, in 1..count+1; on the ordered board, one more than the number of higher scores |
| Leaderboard.LeaderboardService.GetFriendsRank | DFVul1/Services/LeaderboardService.swift:76-81 | the same rank rule on the friends board |
| Leaderboard.LeaderboardService.GetTopPlayers | DFVul1/Services/LeaderboardService.swift:72-74 | the first `min(k, count)` entries of the board, in order |
| Users.Rank | DFVul1/Services/UserService.swift:24-28 | each difficulty has a position in 0..3 |
| Users.DisplayName | DFVul1/Services/UserService.swift:30-37 | every difficulty has a display name of at least four letters |
| Users.TimeLimit | DFVul1/Services/UserService.swift:39-46 | every time limit is a positive number of whole seconds; the body is the table of the source value for value (120, 90, 60 and 45 s as 1200, 900, 600 and 450 tenths) |
| Users.MultiplierHalves | DFVul1/Services/UserService.swift:48-55 | every multiplier is at least 1.0; the body is the table of the source value for value (1.0, 1.5, 2.0 and 3.0 as 2, 3, 4 and 6 halves) |
| Users.StarsCount | DFVul1/Services/UserService.swift:57-64 | every field has at least five stars; the body is the table of the source value for value (5, 7, 9 and 12) |
| Users.TablesFollowDifficulty | DFVul1/Services/UserService.swift:39-64 | a harder setting has strictly less time, a strictly larger multiplier and strictly more stars |
| Users.AvatarsFor | DFVul1/Services/UserService.swift:150-158 | one avatar per constellation in order, with the derived id and the display name, unlocked iff the id is unlocked or the default |
| Users.AvailableAvatars | DFVul1/Services/UserService.swift:149-159 | twenty avatars in `allCases` order, each with its derived id and name, unlocked iff its id is unlocked or is the default |
| Users.UrsaAvatarAlwaysUnlocked | DFVul1/Services/UserService.swift:149-159 | the first avatar, Ursa Major's, is always unlocked |
| Users.CompletionUnlocksAvatar | DFVul1/Models/UserProgress.swift:33-37 | after completing a constellation its avatar is listed as unlocked |
| Users.ChosenName | DFVul1/Services/UserService.swift:119 | the stored name is never empty and equals any non-empty name given |
| Users.UserService.constructor | DFVul1/Services/UserService.swift:11-18 | with nothing stored: a fresh record, the default avatar, "Player", all sounds on, normal difficulty |
| Users.UserService.UpdateScore | DFVul1/Services/UserService.swift:72-84 | the progress takes the score, and the global board receives an entry with that score and the player's name, level and completion count; the settings stay |
| Users.UserService.EntryFor | DFVul1/Services/UserService.swift:77-82 | the entry `updateScore` submits: the player's name, the score, and the level and completion count after the update (a definition; `Users.UserService.UpdateScore` states the submission) |
| Users.UserService.CompleteConstellation | DFVul1/Services/UserService.swift:86-89 | the progress completes the constellation; the settings stay |
| Users.UserService.AddStarsMatched | DFVul1/Services/UserService.swift:91-94 | the progress counts the matched stars; the settings stay |
| Users.UserService.RecordPerfectGame | DFVul1/Services/UserService.swift:96-99 | the progress records a perfect game; the settings stay |
| Users.UserService.RecordTime | DFVul1/Services/UserService.swift:101-104 | the progress offers the time as a best time; the settings stay |
| Users.UserService.ResetStreak | DFVul1/Services/UserService.swift:106-109 | the progress resets the streak; the settings stay |
| Users.UserService.LevelUp | DFVul1/Services/UserService.swift:111-116 | the level rises by one only when due; otherwise the progress is unchanged |
| Users.UserService.UpdatePlayerName | DFVul1/Services/UserService.swift:118-121 | an empty name stores "Player", any other is stored verbatim; nothing else changes |
| Users.UserService.UpdateAvatar | DFVul1/Services/UserService.swift:123-128 | an unlocked or default id becomes the avatar; any other id changes nothing |
| Users.UserService.UpdateSoundSettings | DFVul1/Services/UserService.swift:130-135 | exactly the three sound flags change |
| Users.UserService.UpdateDifficulty | DFVul1/Services/UserService.swift:137-140 | exactly the difficulty changes |
| Users.UserService.ResetProgress | DFVul1/Services/UserService.swift:142-147 | a fresh record and the default avatar; name, sounds and difficulty stay |
| Users.UserService.GetAvailableAvatars | DFVul1/Services/UserService.swift:149-159 | the twenty avatars for the current unlocked set |
| Onboarding.RawValue | DFVul1/ViewModels/OnboardingViewModel.swift:18-24 | each step's raw value lies in 0..4 |
| Onboarding.FromRaw | DFVul1/ViewModels/OnboardingViewModel.swift:18-24 | `init(rawValue:)` is defined exactly on 0..4 and inverts the raw value |
| Onboarding.FromRawRoundTrip | DFVul1/ViewModels/OnboardingViewModel.swift:18-24 | every step is recovered from its raw value |
| Onboarding.RawValueInjective | DFVul1/ViewModels/OnboardingViewModel.swift:18-24 | no two steps share a raw value |
| Onboarding.Advance | DFVul1/ViewModels/OnboardingViewModel.swift:75-86 | below the last step, one step on; at the last step, stay at `.completed` |
| Onboarding.Retreat | DFVul1/ViewModels/OnboardingViewModel.swift:92-95 | above the first step, one step back; at the first step, stay |
| Onboarding.RetreatAfterAdvance | DFVul1/ViewModels/OnboardingViewModel.swift:73-97 | from any step below `.completed`, next then previous returns to it |
| Onboarding.AdvanceAfterRetreat | DFVul1/ViewModels/OnboardingViewModel.swift:73-97 | from any step above `.welcome`, previous then next returns to it |
| Onboarding.ButtonText | DFVul1/ViewModels/OnboardingViewModel.swift:55-64 | "Start Playing" exactly at `.completed`, "Continue" otherwise |
| Onboarding.OnboardingViewModel.constructor | DFVul1/ViewModels/OnboardingViewModel.swift:68-71 | the walk starts at `.welcome`, not animating, with progress 0; the stored completion flag is kept |
| Onboarding.OnboardingViewModel.NextStep | DFVul1/ViewModels/OnboardingViewModel.swift:73-88 | below `.completed`: one step on, stored as the progress, the animation starting on `.features`; at `.completed`: nothing changes |
| Onboarding.OnboardingViewModel.PreviousStep | DFVul1/ViewModels/OnboardingViewModel.swift:90-97 | above `.welcome`: one step back, stored as the progress; at `.welcome`: nothing changes |
| Onboarding.OnboardingViewModel.CompleteOnboarding | DFVul1/ViewModels/OnboardingViewModel.swift:103-105 | only the completion flag changes, to true, so a repeat changes nothing |
| Onboarding.OnboardingViewModel.SkipOnboarding | DFVul1/ViewModels/OnboardingViewModel.swift:99-101 | the same as completing |
| Onboarding.OnboardingViewModel.ResetOnboarding | DFVul1/ViewModels/OnboardingViewModel.swift:130-135 | the flag is cleared, the progress is 0, the step is `.welcome`, no animation |
| Onboarding.OnboardingViewModel.FinishFeatureAnimation | DFVul1/ViewModels/OnboardingViewModel.swift:113-117 | the delayed end of the feature animation: only the animating flag changes, to false |
| Guide.RawValueIsInjective | DFVul1/Views/ConstellationGuideView.swift:24 | the sort key (the display name) tells constellations apart |
| Guide.BeforeTotal | DFVul1/Views/ConstellationGuideView.swift:24 | of two different constellations exactly one sorts first |
| Guide.Before | DFVul1/Views/ConstellationGuideView.swift:24 | the comparator `$0.rawValue < $1.rawValue` as `Text.Less` on a key (a definition) |
| Guide.FilterCases | DFVul1/Views/ConstellationGuideView.swift:17-23 | the filter keeps exactly the members that pass both tests; with an empty search and difficulty 0 it keeps the whole list |
| Guide.MatchesSearch | DFVul1/Views/ConstellationGuideView.swift:18-19 | the search test: an empty search, or the display name contains it ignoring case (a definition) |
| Guide.MatchesDifficulty | DFVul1/Views/ConstellationGuideView.swift:20-21 | the difficulty test: 0 ("All"), or the tier equals it (a definition) |
| Guide.Passes | DFVul1/Views/ConstellationGuideView.swift:17-23 | the filter closure: both tests hold (a definition; `Guide.FilterCases` states the filter) |
| Guide.FilterDistinct | DFVul1/Views/ConstellationGuideView.swift:17-23 | filtering a list without repeats gives a list without repeats |
| Guide.InsertByKey | DFVul1/Views/ConstellationGuideView.swift:24 | inserting adds exactly one element |
| Guide.InsertAscending | DFVul1/Views/ConstellationGuideView.swift:24 | inserting a new element into an ascending list keeps it ascending |
| Guide.SortByKey | DFVul1/Views/ConstellationGuideView.swift:24 | sorting keeps the members and gives a strictly ascending list |
| Guide.FilterAndSort | DFVul1/Views/ConstellationGuideView.swift:17-24 | the result is strictly ascending by name, holds exactly the members passing both tests, each once, and everything when nothing is filtered |
| Guide.FilteredConstellations | DFVul1/Views/ConstellationGuideView.swift:16-25 | strictly ascending by name; a constellation is listed iff it passes the search and the difficulty filter, and then once; an empty search with difficulty 0 lists all 20 |
| Guide.AscendingDistinct | DFVul1/Views/ConstellationGuideView.swift:24 | a strictly ascending list has no repeats |
| Guide.Repeat | DFVul1/Views/ConstellationGuideView.swift:181-182 | `String(repeating:count:)` gives `n` copies of the character |
| Guide.DifficultyStars | DFVul1/Views/ConstellationGuideView.swift:180-183 | four characters: one ★ per difficulty tier, then ☆ |
| Guide.DifficultyText | DFVul1/Views/ConstellationGuideView.swift:402-410 | each of 1..4 has its own label, each label only for its tier; anything else is "Unknown" |
| Guide.CatalogueHasKnownLabels | DFVul1/Views/ConstellationGuideView.swift:402-410 | no catalogue constellation is labelled "Unknown" |
| GameScreen.TruncDiv | DFVul1/Views/GameView.swift:238 | Swift's `/` rounds toward zero |
| GameScreen.TruncRem | DFVul1/Views/GameView.swift:239 | Swift's `%` takes the dividend's sign and recomposes with `/` |
| GameScreen.WholeSeconds | DFVul1/Views/GameView.swift:238-239 | `Int(t)` of a non-negative time is its whole seconds |
| GameScreen.Pad2 | DFVul1/Views/GameView.swift:240 | `%02d` puts a zero before a single digit and prints anything else as `%d` |
| GameScreen.Minutes | DFVul1/Views/GameView.swift:238 | `Int(t) / 60` of a time that has not run out is the whole minutes: `600 * m <= t < 600 * (m + 1)` tenths |
| GameScreen.Seconds | DFVul1/Views/GameView.swift:239 | `Int(t) % 60` of a time that has not run out lies in 0..59 and, with the minutes, brackets the time to the tenth |
| GameScreen.TimeString | DFVul1/Views/GameView.swift:237-241 | for a time that has not run out, the label is digits with a colon third from the end; `GameScreen.TimeStringRoundTrip` proves that it reads back as the whole seconds |
| GameScreen.TimeFieldsRecompose | DFVul1/Views/GameView.swift:237-240 | minutes × 60 + seconds gives back the whole seconds; for a time not run out, seconds are in 0..59 and minutes are not negative |
| GameScreen.Pad2TwoDigits | DFVul1/Views/GameView.swift:240 | a seconds value in 0..59 prints as two digits that read back as it |
| GameScreen.TimeStringRoundTrip | DFVul1/Views/GameView.swift:237-240 | the `m:ss` label of a time not run out reads back as its whole seconds |
| GameScreen.OfType | DFVul1/Views/GameView.swift:104 | filtering by type never lengthens the list |
| GameScreen.OfTypeMembers | DFVul1/ViewModels/GameViewModel.swift:124 | the filter keeps exactly the stars of the type |
| GameScreen.OfTypeKeepsAll | DFVul1/Views/GameView.swift:104 | the filter keeps every star exactly when all are of the type |
| GameScreen.OfTypeCountPermutation | DFVul1/ViewModels/GameViewModel.swift:262 | reordering the stars keeps the count of each type |
| GameScreen.CountOfSplit | DFVul1/ViewModels/GameViewModel.swift:227-259 | a list whose first `k` stars are exactly those of the type holds `k` of them |
| GameScreen.ProgressTotal | DFVul1/Views/GameView.swift:104 | the in-game total counts only target stars, and equals the field size iff all stars are target stars |
| GameScreen.ProgressTotalBelowField | DFVul1/Views/GameView.swift:104-131 | with a decoy on the field the in-game total is below the game-over total |
| GameScreen.GameOverTotal | DFVul1/Views/GameView.swift:131 | the game-over total is never below the in-game total, and equals it iff every star is of the target |
| GameScreen.PerfectShown | DFVul1/Views/GameView.swift:411-412 | the "Perfect Game" test: the matched count equals the game-over total (a definition; `Session.NormalPlayNeverComplete` proves that it never holds in ordinary play) |
| Session.MatchScore | DFVul1/ViewModels/GameViewModel.swift:166-172 | twice the score is `(n*100 + combo*50)` times the multiplier in halves, so the conversion is exact; a match of 3 or more scores at least 300 |
| Session.TargetCount | DFVul1/ViewModels/GameViewModel.swift:227 | `max(3, n/2)`: at least 3, and below `n` once `n >= 4` |
| Session.DecoysAlwaysPresent | DFVul1/ViewModels/GameViewModel.swift:227-243 | every difficulty lays out at least 3 target stars and at least one decoy |
| Session.Without | DFVul1/ViewModels/GameViewModel.swift:244 | the filter keeps exactly the other cases |
| Session.Others | DFVul1/ViewModels/GameViewModel.swift:244 | `otherConstellations` holds exactly the cases other than the target |
| Session.Layout | DFVul1/ViewModels/GameViewModel.swift:220-259 | the unshuffled field: `n` new stars with consecutive ids and the drawn positions and brightness; a star is of the target type iff it is among the first `max(3, n/2)` |
| Session.BuildLayout | DFVul1/ViewModels/GameViewModel.swift:224-259 | the two appending loops build exactly `Layout` |
| Session.LayoutPermutationFacts | DFVul1/ViewModels/GameViewModel.swift:220-262 | any reordering of the layout is a new field: `n` stars, `max(3, n/2)` of the target type, a decoy, nothing selected, ids in the new range |
| Session.Shuffle | DFVul1/ViewModels/GameViewModel.swift:262 | the shuffle is a permutation and keeps ids distinct |
| Session.TutorialPositions | DFVul1/ViewModels/GameViewModel.swift:344-352 | seven tutorial positions |
| Session.TutorialLayout | DFVul1/ViewModels/GameViewModel.swift:339-363 | seven new stars at the tutorial positions, the first four Ursa Major and the rest Orion |
| Session.TutorialFacts | DFVul1/ViewModels/GameViewModel.swift:339-363 | the tutorial field holds four Ursa Major stars, distinct ids, and nothing selected |
| Session.IdsOf | DFVul1/ViewModels/GameViewModel.swift:133-135 | a list has at most as many ids as stars |
| Session.IdsOfMembers | DFVul1/ViewModels/GameViewModel.swift:133-135 | the ids of a list are exactly the ids of its stars |
| Session.IdsOfAppend | DFVul1/ViewModels/GameViewModel.swift:133-135 | the ids of a concatenation are the union of the ids |
| Session.IdsOfSubset | DFVul1/ViewModels/GameViewModel.swift:133-135 | a list drawn from another has a subset of its ids |
| Session.IdsOfType | DFVul1/ViewModels/GameViewModel.swift:149 | the target ids are fewer than the stars unless every star is a target star |
| Session.MatchedNeverAll | DFVul1/ViewModels/GameViewModel.swift:149 | a matched set of target ids, with a decoy on the field, is smaller than the field |
| Session.Unselected | DFVul1/ViewModels/GameViewModel.swift:176-178 | clearing flags lowers every flag and touches nothing else |
| Session.ClearedPlay | DFVul1/ViewModels/GameViewModel.swift:174-179 | `clearSelection`: the selection empties and every flag is lowered; matches, score, combo, state, clock and timer stay |
| Session.SameTypedIds | DFVul1/ViewModels/GameViewModel.swift:106 | changing flags keeps each id with its type |
| Session.IndexOfId | DFVul1/ViewModels/GameViewModel.swift:105 | `firstIndex(where:)` by id finds a star with that id, or there is none |
| Session.RemoveId | DFVul1/ViewModels/GameViewModel.swift:114 | `removeAll` by id drops exactly the stars with that id |
| Session.Penalized | DFVul1/ViewModels/GameViewModel.swift:160 | `max(0, score - 50)` is not negative and is either 0 or `score - 50` |
| Session.CompletedPlay | DFVul1/ViewModels/GameViewModel.swift:181-196 | `completeLevel`: state `.completed`, timer stopped, tip shown, the remaining tenths added to the score, one `nextLevel` scheduled; the field, selection, matches and combo stay |
| Session.Scored | DFVul1/ViewModels/GameViewModel.swift:127-134 | twice the points added are `(n * 100 + combo * 50) * halves` with the old combo; the combo grows by one; the matched set gains the ids of the target stars and keeps the old ones |
| Session.Hit | DFVul1/ViewModels/GameViewModel.swift:126-151 | the successful branch: combo + 1, the matched set grows by the target ids, the selection is cleared; below a full field the score grows by the match score and nothing else changes, and on a full field the level is completed with the time bonus added |
| Session.Miss | DFVul1/ViewModels/GameViewModel.swift:156-161 | the failed branch: the selection is cleared and matches stay; a running combo drops to 0 and costs 50 points, never going below 0; with no combo the score and combo stay |
| Session.MatchStep | DFVul1/ViewModels/GameViewModel.swift:121-163 | `checkForMatch`: nothing changes below 3 selected; otherwise the selection is cleared, matches never shrink, and the combo grows exactly when at least 3 target stars were selected; a miss adds no matches |
| Session.Toggled | DFVul1/ViewModels/GameViewModel.swift:105-115 | the toggle in `selectStar`: exactly the chosen star's flag flips, keeping its id and type; a selected star is appended to the selection, and a deselected one's id leaves it; score, combo, matches and control stay |
| Session.SelectStep | DFVul1/ViewModels/GameViewModel.swift:102-119 | `selectStar`: nothing changes outside `.playing` or for an id not on the field; the field keeps its size and matches never shrink |
| Session.DecoyKept | DFVul1/ViewModels/GameViewModel.swift:106-178 | changing flags keeps a decoy on the field |
| Session.NewFieldIsNormal | DFVul1/ViewModels/GameViewModel.swift:54-65 | a new field with nothing selected or matched is ordinary play |
| Session.NormalPlayNeverComplete | DFVul1/ViewModels/GameViewModel.swift:149 | in consistent play `matchedStars.count == stars.count` never holds, nor does the "Perfect Game" test |
| Session.ClearedNormal | DFVul1/ViewModels/GameViewModel.swift:146-150 | clearing the selection after a match gives ordinary play in which the level is not complete |
| Session.MatchedStaysTargeted | DFVul1/ViewModels/GameViewModel.swift:124-135 | the ids a match adds are ids of target stars on the field |
| Session.HitOutcome | DFVul1/ViewModels/GameViewModel.swift:126-151 | a match from consistent play scores with the old combo, raises the combo, adds the matched ids, clears the selection, never completes the level and gives ordinary play |
| Session.MissOutcome | DFVul1/ViewModels/GameViewModel.swift:156-163 | a failed match keeps the matched set, zeroes the combo, costs 50 (floored at 0) only if a combo was running, and gives ordinary play |
| Session.MatchStepOutcome | DFVul1/ViewModels/GameViewModel.swift:121-164 | `checkForMatch` from consistent play: nothing below 3 selected; otherwise the hit or miss outcome above; the state, clock and timer stay; the result is ordinary play |
| Session.ToggledSameShape | DFVul1/ViewModels/GameViewModel.swift:106 | a toggle keeps each id with its type |
| Session.SelectFlags | DFVul1/ViewModels/GameViewModel.swift:106-110 | selecting a star keeps the selection on the field and a flag up exactly when its id is selected |
| Session.DeselectFlags | DFVul1/ViewModels/GameViewModel.swift:106-115 | deselecting a star keeps the selection on the field and a flag up exactly when its id is selected |
| Session.SelectKeepsConsistent | DFVul1/ViewModels/GameViewModel.swift:106-110 | selecting from ordinary play stays consistent with at most 3 selected |
| Session.DeselectKeepsConsistent | DFVul1/ViewModels/GameViewModel.swift:106-115 | deselecting from ordinary play stays consistent |
| Session.SelectStepKeepsNormal | DFVul1/ViewModels/GameViewModel.swift:102-119 | `selectStar` from ordinary play gives ordinary play with the state, clock and timer unchanged; outside `.playing` or for an unknown id it changes nothing |
| Session.MatchStepKeepsField | DFVul1/ViewModels/GameViewModel.swift:121-164 | matching only changes flags |
| Session.SelectStepKeepsField | DFVul1/ViewModels/GameViewModel.swift:102-119 | selecting only changes flags |
| Session.EndGameCounters | DFVul1/ViewModels/GameViewModel.swift:88-99 | `endGame` always adds one game, the score and the matched count, updates the high score, offers the elapsed time and levels up when due |
| Session.EndGameProgress | DFVul1/ViewModels/GameViewModel.swift:88-99 | what `endGame` reports: one more game, the score added to the total, the matched count added; without a full match the streak resets and no perfect game is recorded |
| Session.EndGameBranches | DFVul1/ViewModels/GameViewModel.swift:91-96 | with every star matched a perfect game is recorded and the constellation completed; otherwise only the streak is reset; never both |
| Session.NormalEndGameIsNeverPerfect | DFVul1/ViewModels/GameViewModel.swift:82-99 | ending from consistent play always resets the streak and never records a perfect game or a completed constellation |
| GameModel.GameViewModel.constructor | DFVul1/ViewModels/GameViewModel.swift:321-324 | the property defaults, with the random first target as a parameter and the difficulty's time limit |
| GameModel.GameViewModel.StartGame | DFVul1/ViewModels/GameViewModel.swift:54-70 | state `.playing`; score, combo and selection cleared; level 1; full clock; the timer runs; the stars are a shuffle of the new layout; the result is ordinary play |
| GameModel.GameViewModel.BeginSession | DFVul1/ViewModels/GameViewModel.swift:55-61 | the resets at the head of `startGame`, and nothing else |
| GameModel.GameViewModel.StartTimer | DFVul1/ViewModels/GameViewModel.swift:265-274 | exactly one game timer runs afterwards |
| GameModel.GameViewModel.PauseGame | DFVul1/ViewModels/GameViewModel.swift:72-75 | unguarded: the state becomes `.paused` and the timer stops; ordinary play is kept |
| GameModel.GameViewModel.ResumeGame | DFVul1/ViewModels/GameViewModel.swift:77-80 | unguarded: the state becomes `.playing` and the timer runs; ordinary play is kept |
| GameModel.GameViewModel.EndGame | DFVul1/ViewModels/GameViewModel.swift:82-100 | state `.gameOver`, timer stopped; the progress is what `EndGameProgress` says for the final score, matched count, field size, target and elapsed time; the global board receives the score entry |
| GameModel.GameViewModel.StopGame | DFVul1/ViewModels/GameViewModel.swift:83-85 | the state becomes `.gameOver` and the timer stops |
| GameModel.GameViewModel.ReportSession | DFVul1/ViewModels/GameViewModel.swift:88-99 | the user-service calls of `endGame` give `EndGameProgress` and submit the score |
| GameModel.GameViewModel.ReportScore | DFVul1/ViewModels/GameViewModel.swift:88-89 | the score and the matched count are reported, and the score is submitted |
| GameModel.GameViewModel.ReportOutcome | DFVul1/ViewModels/GameViewModel.swift:91-96 | a perfect game records it and completes the constellation; otherwise the streak is reset |
| GameModel.GameViewModel.ReportTime | DFVul1/ViewModels/GameViewModel.swift:98-99 | the elapsed time is offered as a best time, then a level-up is checked |
| GameModel.GameViewModel.SelectStar | DFVul1/ViewModels/GameViewModel.swift:102-119 | the fields move as `SelectStep` says; from ordinary play the result is ordinary play with state, clock and timer unchanged |
| GameModel.GameViewModel.CheckForMatch | DFVul1/ViewModels/GameViewModel.swift:121-164 | the fields move as `MatchStep` says |
| GameModel.GameViewModel.InsertMatched | DFVul1/ViewModels/GameViewModel.swift:133-135 | the loop adds exactly the ids of the matched stars |
| GameModel.GameViewModel.ClearSelection | DFVul1/ViewModels/GameViewModel.swift:174-179 | the selection empties and every flag goes down; nothing else changes |
| GameModel.GameViewModel.CompleteLevel | DFVul1/ViewModels/GameViewModel.swift:181-196 | state `.completed`, timer stopped, tip shown, the remaining tenths added as a bonus, one `nextLevel` scheduled |
| GameModel.GameViewModel.NextLevel | DFVul1/ViewModels/GameViewModel.swift:198-218 | one level up, the next constellation in `allCases` order, selection and matches cleared, full clock, state `.playing`, timer running, a new field; score and combo kept |
| GameModel.GameViewModel.AdvanceLevel | DFVul1/ViewModels/GameViewModel.swift:199-213 | the resets at the head of `nextLevel`, with the scheduled call used up |
| GameModel.GameViewModel.GenerateStars | DFVul1/ViewModels/GameViewModel.swift:220-263 | the field is a permutation of the layout: `starsCount` stars, `max(3, n/2)` of the target, the rest decoys, distinct ids; nothing else but the id counter changes |
| GameModel.GameViewModel.Tick | DFVul1/ViewModels/GameViewModel.swift:267-272 | a tenth of a second goes; with time left nothing else changes; at or below zero the game ends as `EndGame` says |
| GameModel.GameViewModel.ResetGame | DFVul1/ViewModels/GameViewModel.swift:305-319 | back to `.menu` with the timer stopped, score, combo and level reset, full clock, target Ursa Major; the stars are kept |
| GameModel.GameViewModel.StartTutorial | DFVul1/ViewModels/GameViewModel.swift:334-337 | state `.tutorial` on the tutorial field; nothing else is reset |
| GameModel.GameViewModel.GenerateTutorialStars | DFVul1/ViewModels/GameViewModel.swift:339-363 | the loop builds exactly the tutorial layout, with Ursa Major as the target |
| GameModel.GameViewModel.CompleteTutorial | DFVul1/ViewModels/GameViewModel.swift:365-368 | the same end state as `resetGame` |

## Left out

- Persistence is not modelled. This covers `UserDefaults`, JSON encoding and decoding, `@AppStorage`, `exportProgress`, `importProgress` and the load and save helpers. Stored values are plain fields, and the constructors start from an empty store.
- `OnboardingViewModel.loadProgress` is private and never called, so it is left out.
- Foundation timers and `DispatchQueue.asyncAfter` are not modelled; their firings are explicit calls (`Tick`, `NextLevel`, `FinishFeatureAnimation`, `FinishRefresh`). `startTimer` invalidating the old timer is the single `timerActive` flag.
- The combo indicator (`showCombo`, `showingCombo`, the combo timer), particles, haptics and sound are cosmetic and left out.
- `currentTip` and the long text tables (`educationalTip`, `title`, `description`, `detailedDescription`, `bestViewingTime`) are left out.
- Floating point is not modelled: times are tenths and multipliers halves. The division by 255 in `Color(hex:)` is left out, and so are `CGPoint` coordinates (positions are integer points).
- Swift's `Int` is 64 bits wide and traps on overflow, for example in `score += matchScore`, in `totalScore += newScore` and in the `Int(Double(...))` conversion of the match score. The model's `int` is unbounded, so those traps are left out.
- Accumulated rounding of repeated 0.1 subtractions is not modelled: each tick removes exactly one tenth.
- Random numbers are parameters: star positions, brightness, decoy choices, shuffle swaps, leaderboard scores, levels and counts, name suffixes and the initial target. Their ranges are not enforced, except that a decoy is another constellation and a swap partner lies ahead in the list.
- `randomElement() ?? .orion` falls back only on an empty list, and the decoy list always has 19 entries, so the fallback is left out.
- UUIDs and dates are not modelled. A star's id is a number from a counter. Leaderboard entries carry no id or date.
- Text handling is ASCII only. Letters and digits are the ASCII ones, case folding is ASCII, and string order compares character codes. Full Unicode semantics of `trimmingCharacters`, `localizedCaseInsensitiveContains` and `<` on `String` are left out.
- `ContentView`, `SettingsView`, `OnboardingView` and all SwiftUI view bodies are not part of this model. The exception is the arithmetic of `GameView` (the clock label and the two star totals).
- `GameModel.GameViewModel.GenerateStars` builds the new list locally and assigns it once. The source instead appends to `stars` and shuffles it in place; the end state is the same.
- `Tick`: its contract does not repeat the progress and leaderboard outcome of the `endGame` it calls when time runs out; `EndGame`'s contract states that outcome.
- `Stars.Difficulty`: the contract states the range 1..4; the tier of each case is the body's table, not restated in an `ensures`.
- `Users.TimeLimit`: the contract states positive whole seconds; the value for each difficulty is the body's table, not restated in an `ensures`.
- `Users.MultiplierHalves`: the contract states a lower bound; the value for each difficulty is the body's table, not restated in an `ensures`.
- `Users.StarsCount`: the contract states a lower bound; the value for each difficulty is the body's table, not restated in an `ensures`.
- `Leaderboard.LeaderboardService.GetTopPlayers`: the count is a natural number, because `prefix` traps on a negative count.
- `Leaderboard.LeaderboardService.RemoveFriend`: the index is a natural number, because `remove(at:)` traps on a negative index.

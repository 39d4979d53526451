# Typing Battle: a verified model of the race client

Typing Battle lets two players race to type the same passage. This project
models the client logic of that race in Dafny and proves properties of it:

- **Race metrics** (`RaceMetrics`). `calculateStats` computes the error count,
  accuracy, words typed and words per minute. Both typing components hold an
  identical copy of it, so it is modelled once. All arithmetic is exact:
  JavaScript's `Math.round(x)` is `floor(x + 1/2)` on rationals, and the clock
  is integer milliseconds.
- **Typing feedback** (`TextFeedback`). This is the sound cue chosen for an
  appended key and the colour class of every passage character in
  `renderText`.
- **Opponent stats** (`StatsChannel`). `playerStats` events bring the
  opponent's latest numbers. The latest snapshot from another player wins.
- **Keystroke controllers**. `TypingCmp.RaceTyping` is the multiplayer
  component and `TypingCmpInd.PracticeTyping` the practice one. Each is a
  class whose fields are the component's React state (`userInput`,
  `startTime`, `currentPosition`, `currentErrors`, `isCompleted`, `stats`).
  A handler reads the state of the render the key arrived in, so the stats
  it computes describe the buffer as it was before the key: they lag one key
  behind. The effects that run after the next render are part of each
  method. These are the completion effect, the `updateStats` broadcast and
  the `saveStats` gate. Messages and requests come back as values.
- **Scoring and ranking** (`Leaderboard`). `calculateOverallScore` works over
  `real`. The fetched records are tagged with their scores and sorted in
  place, highest score first.
- **Room view** (`TypingRoom.RoomView`). This is how the local `RoomData`
  changes on `roomData`, `roomCreated`, `playerJoined` and `gameReset`. It
  also covers which request a `roomData` reply triggers, the predicate that
  starts the preparation countdown, and the guards for the Ready badge and
  the typing area.

Some behaviours of the code are easy to miss, and the model keeps them:

- Completion is not exactly-once. The multiplayer completion effect depends
  on `stats` and `opponentStats`. So while the buffer is full, every stats
  recompute and every foreign `playerStats` event sends `raceCompleted` again
  and reopens the dialog.
- Accuracy is 100 for an empty buffer. Through the `|| 100` fallback it is
  also 100 whenever the rounded value is 0, for example when every character
  is wrong.
- The first handled key only records the start time. Its stats are not
  computed.
- In the practice component, a Backspace on an empty buffer still runs
  `calculateStats`, and so it can start the clock.
- The practice `reset` leaves `isCompleted` as it was. It also resets
  accuracy to 0, while the multiplayer reset uses 100.
- `!startTime` is JavaScript falsiness, so a start time of 0 counts as unset
  (`RaceMetrics.Unstamped`).
- The typing area appears as soon as two players are ready, whatever the
  room status. The countdown starts only once the status is `"running"`.

The clock (`Date.now()`), the randomly picked passage and every payload are
parameters.

## Model

| member | source | states |
|---|---|---|
| `RaceMetrics.RoundHalfUp` | src/components/TypingCmp.tsx:110-111 | `Math.round(n/d)` for d > 0 is the integer r with 2dr <= 2n+d < 2d(r+1) |
| `RaceMetrics.RoundHalfUpIsMathRound` | src/components/TypingCmp.tsx:119-121 | the integer rounding equals `floor(n/d + 1/2)` taken on the real n/d |
| `RaceMetrics.ErrorCount` | src/components/TypingCmp.tsx:113-115 | the `reduce` over the typed characters never counts more errors than characters typed |
| `RaceMetrics.ErrorCountIsMismatchCount` | src/components/TypingCmp.tsx:113-115 | the error count is the number of typed positions that differ from the sample or lie past its end |
| `RaceMetrics.PrefixHasNoErrors` | src/components/TypingCmpInd.tsx:99-101 | a correctly typed prefix of the sample has error count 0 |
| `RaceMetrics.AppendErrorCount` | src/components/TypingCmp.tsx:113-115 | appending a character adds one error exactly when it mismatches its position; earlier positions keep their contribution |
| `RaceMetrics.Accuracy` | src/components/TypingCmp.tsx:119-121 | with n = 200(p-e)+p, accuracy is 100 when p = 0 or 0 <= n < 2p (the rounded value is 0, which falls back to 100); otherwise it is the integer r with 2pr <= n < 2p(r+1), that is `round((p-e)*100/p)`; with no errors it is 100, and for e <= p it lies in [1,100] |
| `RaceMetrics.AllWrongShowsFullAccuracy` | src/components/TypingCmp.tsx:119-121 | a buffer with every character wrong shows accuracy 100 through the fallback to 100 |
| `RaceMetrics.NearlyAllWrongShowsFullAccuracy` | src/components/TypingCmp.tsx:119-121 | 200 errors in 201 characters also show accuracy 100 |
| `RaceMetrics.RoundsToZero` | src/components/TypingCmp.tsx:119-121 | the rounded accuracy is 0, so that the fallback to 100 fires, exactly when (p-e)*100/p lies in [-1/2, 1/2) |
| `RaceMetrics.WordsTyped` | src/components/TypingCmp.tsx:110 | words typed is position/5 rounded half up |
| `RaceMetrics.Wpm` | src/components/TypingCmp.tsx:109-124 | WPM is 0 when the elapsed time is not positive, else words per minute (words * 60000 / ms) rounded half up, never negative |
| `RaceMetrics.Unstamped` | src/components/TypingCmp.tsx:104 | `!startTime` holds for a missing start time and for the falsy timestamp 0, and for nothing else |
| `RaceMetrics.CalculateStats` | src/components/TypingCmp.tsx:103-129 | with no start time it only stamps `now`; otherwise it recomputes: errors = number of mismatching positions, WPM = `Wpm(position, now - startTime)` (0 when no time elapsed), accuracy = `Accuracy(position, errors)` in [1,100] (100 without errors), totalTyped = position; the copy at src/components/TypingCmpInd.tsx:89-115 is identical |
| `TextFeedback.KeyCue` | src/components/TypingCmp.tsx:179-185 | the cue is space iff the key is a space, and correct iff the key is not a space and equals the expected sample character |
| `TextFeedback.CueMatchesNewError` | src/components/TypingCmpInd.tsx:181-187 | for any key other than a space, the error cue plays exactly when appending the key raises the error count by one |
| `TextFeedback.ClassAt` | src/components/TypingCmp.tsx:193-203 | a character is drawn as typed right iff it is typed and equals the sample, red iff it is typed and differs, under the caret iff its index is the buffer length, and pending iff it lies beyond the caret |
| `TextFeedback.RenderClasses` | src/components/TypingCmp.tsx:189-216 | one class per sample character, each given by the per-index rule |
| `TextFeedback.RedCountIsErrorCount` | src/components/TypingCmp.tsx:192-203 | while the buffer is no longer than the passage, the number of red characters equals the error count |
| `StatsChannel.Receive` | src/components/TypingCmp.tsx:61-68 | an event from oneself leaves the opponent view unchanged; any other event replaces it with the sender's name and stats |
| `StatsChannel.LatestWins` | src/pages/TypingRoom.tsx:180-187 | after any run of events, the view is the one from the last event sent by someone else, or unchanged if there was none |
| `TypingCmp.ZeroedOpponent` | src/components/TypingCmp.tsx:246-253 | on reset, a present opponent view keeps its player name and gets wpm 0, accuracy 100, errors 0; an absent one stays absent |
| `TypingCmp.StatsLagOneKey` | src/components/TypingCmp.tsx:166-177 | because stats are computed from the pre-key buffer, a wrong key still reports 0 errors although the new buffer has one |
| `TypingCmp.RaceTyping.constructor` | src/components/TypingCmp.tsx:31-48 | the initial state: empty buffer, no start time, position and errors 0, not completed, stats {0, 100, 0, 0}, no opponent |
| `TypingCmp.RaceTyping.Effects` | src/components/TypingCmp.tsx:77-86 | after a render, `raceCompleted` with the current stats is emitted when a dependency changed and the buffer is as long as the passage, then `updateStats` with wpm, accuracy and the current errors when those changed and the start time is set (lines 218-230) |
| `TypingCmp.RaceTyping.AfterRender` | src/components/TypingCmp.tsx:77-86 | the completion flag is set when a dependency changed and the buffer is as long as the passage; `raceCompleted` then carries the current stats, and `updateStats` follows when the watched numbers changed and a start time is set |
| `TypingCmp.RaceTyping.KeyDown` | src/components/TypingCmp.tsx:161-187 | keeps position = buffer length <= passage length; with counter > 0, on Backspace over an empty buffer, or on a key that is not one character or arrives with a full buffer, nothing changes and no sound plays; Backspace removes exactly the last character; a key is appended with the cue for it; stats are computed from the state before the key; completion follows the new buffer |
| `TypingCmp.RaceTyping.Reset` | src/components/TypingCmp.tsx:233-267 | restores the initial session state, zeroes the opponent's numbers and sends `resetRoom` and `playerReset` |
| `TypingCmp.RaceTyping.ReceiveStats` | src/components/TypingCmp.tsx:59-68 | latest foreign snapshot wins; all other state is unchanged; a foreign snapshot with a full buffer sends `raceCompleted` again and sets the completion flag |
| `TypingCmp.RaceTyping.CloseDialog` | src/components/TypingCmp.tsx:346 | the Close button clears the completion flag |
| `TypingCmpInd.TrimEnd` | src/components/TypingCmpInd.tsx:156 | `trimEnd` gives a prefix that is empty or ends in non-white-space, and removes only white space |
| `TypingCmpInd.LastIndexOf` | src/components/TypingCmpInd.tsx:157 | `lastIndexOf` gives -1 or an index of the character, and no later index holds it |
| `TypingCmpInd.WordDelete` | src/components/TypingCmpInd.tsx:154-165 | Ctrl+Backspace gives a prefix of the buffer that is empty or ends in a space; it is strictly shorter on a non-empty buffer; it is empty when the trimmed buffer has no space; no space lies between it and the trimmed end |
| `TypingCmpInd.WordDeleteUnique` | src/components/TypingCmpInd.tsx:154-165 | those properties determine the Ctrl+Backspace result uniquely |
| `TypingCmpInd.PracticeTyping.constructor` | src/components/TypingCmpInd.tsx:40-51 | the initial state: empty buffer, no start time, position and errors 0, not completed, stats {0, 0, 0, 0} |
| `TypingCmpInd.PracticeTyping.Save` | src/components/TypingCmpInd.tsx:239-255 | outside practice mode the completion effect posts playerId, userId and the current wpm, errors and accuracy; in practice mode it posts nothing (lines 82-83) |
| `TypingCmpInd.PracticeTyping.AfterRender` | src/components/TypingCmpInd.tsx:79-87 | when the buffer changed and is as long as the passage, the run is completed, and the stats are saved only outside practice mode |
| `TypingCmpInd.PracticeTyping.KeyDown` | src/components/TypingCmpInd.tsx:145-189 | keeps position = buffer length <= passage length; with counter > 0 nothing changes; every Backspace, even on an empty buffer, plays the correct cue and runs the stats step; Ctrl+Backspace applies `WordDelete`; plain Backspace removes the last character if there is one; a one-character key is appended only below the passage length |
| `TypingCmpInd.PracticeTyping.Reset` | src/components/TypingCmpInd.tsx:220-232 | empty buffer, position and errors 0, no start time, stats {0, 0, 0, 0}; the completion flag is untouched and nothing is saved |
| `TypingCmpInd.PracticeTyping.SetToZero` | src/components/TypingCmpInd.tsx:234-238 | the reset runs exactly when `tozero` turns true; otherwise the session is unchanged |
| `TypingCmpInd.PracticeTyping.CloseDialog` | src/components/TypingCmpInd.tsx:335-337 | Close clears the completion flag and resets |
| `Leaderboard.ErrorPenalty` | src/components/LeaderboardTable.jsx:21 | the penalty is never negative, at most 1 for errors >= 0, exactly 0 from 20 errors on and positive below 20 |
| `Leaderboard.RoundToTenth` | src/components/LeaderboardTable.jsx:31 | the result is a multiple of 0.1 within [-0.05, 0.05) of the input |
| `Leaderboard.RawScore` | src/components/LeaderboardTable.jsx:13-28 | wpm times accuracy/100 times the error penalty, times 0.1 when accuracy < 50 or errors > 20 |
| `Leaderboard.Score` | src/components/LeaderboardTable.jsx:13-31 | the raw score rounded to the nearest tenth |
| `Leaderboard.CalculateOverallScore` | src/components/LeaderboardTable.jsx:11-32 | the step-by-step `baseScore` computation equals the closed-form score |
| `Leaderboard.RawScoreBounds` | src/components/LeaderboardTable.jsx:13-28 | in range, the pre-rounding score lies in [0, wpm]; and when accuracy < 50 or errors > 20 it is at most a tenth of wpm |
| `Leaderboard.ScoreBounds` | src/components/LeaderboardTable.jsx:11-31 | for wpm >= 0, accuracy in [0,100] and errors >= 0 the score is >= 0, and it is <= wpm when wpm is a whole number |
| `Leaderboard.PerfectRunScoresSpeed` | src/components/LeaderboardTable.jsx:13-31 | with accuracy 100 and no errors the score is wpm rounded to a tenth, and wpm itself when that is whole |
| `Leaderboard.TwentyErrorsScoreZero` | src/components/LeaderboardTable.jsx:21-22 | 20 or more errors give score 0 |
| `Leaderboard.ScoreMonotoneInWpm` | src/components/LeaderboardTable.jsx:13-31 | the score never decreases as wpm grows |
| `Leaderboard.ScoreMonotoneInAccuracy` | src/components/LeaderboardTable.jsx:13-31 | the score never decreases as accuracy grows, across the 50% threshold too |
| `Leaderboard.ScoreAntitoneInErrors` | src/components/LeaderboardTable.jsx:13-31 | the score never increases as errors grow, across the 20-error threshold too |
| `Leaderboard.ScoreExamples` | src/components/LeaderboardTable.jsx:11-31 | score(60,100,0) = 60, score(60,100,5) = 45, score(100,40,0) = 4, score(50,100,25) = 0 |
| `Leaderboard.ScoreAll` | src/components/LeaderboardTable.jsx:42-45 | each fetched record, in order, is tagged with its own score |
| `Leaderboard.SortByScore` | src/components/LeaderboardTable.jsx:47 | the in-place sort leaves the array in non-increasing score order and a permutation of what it was |
| `Leaderboard.RankRecords` | src/components/LeaderboardTable.jsx:42-48 | the displayed list is a permutation of the scored records, in non-increasing score order, and each entry carries its own record's score |
| `TypingRoom.FindPlayer` | src/pages/TypingRoom.tsx:130 | `find` returns a player with the id iff the list holds one |
| `TypingRoom.CountdownTriggered` | src/pages/TypingRoom.tsx:79-82 | the preparation countdown starts exactly when room data is present with at least 2 players, at least 2 ready entries and status running |
| `TypingRoom.ShowsTypingArea` | src/pages/TypingRoom.tsx:284 | the typing area is shown exactly when at least 2 ready entries exist |
| `TypingRoom.BadgeFor` | src/pages/TypingRoom.tsx:258-270 | a check is shown iff the player is ready; a Ready button is shown iff the player is the local one and is not ready |
| `TypingRoom.Badges` | src/pages/TypingRoom.tsx:244-281 | one badge per player, in list order |
| `TypingRoom.AtMostOneReadyButton` | src/pages/TypingRoom.tsx:259-268 | with distinct player ids, at most one Ready button appears, and only when the local player is in the room and not ready |
| `TypingRoom.CountdownShowsTypingArea` | src/pages/TypingRoom.tsx:79-90 | whenever the countdown is triggered (>= 2 players, >= 2 ready, status running), the typing area is shown |
| `TypingRoom.TypingAreaIgnoresStatus` | src/pages/TypingRoom.tsx:284-294 | the typing area depends only on `ready` having at least 2 entries; with 2 ready and a status other than running it is shown while the countdown is not triggered |
| `TypingRoom.CreatedRoom` | src/pages/TypingRoom.tsx:140-152 | the created room has the payload's id and text, exactly one player who is host, no ready entries and status waiting |
| `TypingRoom.CreatedRoomIsWaiting` | src/pages/TypingRoom.tsx:140-152 | a freshly created room neither starts the countdown nor shows the typing area |
| `TypingRoom.RequestFor` | src/pages/TypingRoom.tsx:127-133 | a null reply leads to a create request carrying the local sample text; a reply without the local player leads to a join request; otherwise no request is sent |
| `TypingRoom.RoomView.constructor` | src/pages/TypingRoom.tsx:48-57 | no room data and no opponent stats before any event |
| `TypingRoom.RoomView.OnRoomData` | src/pages/TypingRoom.tsx:124-136 | the local state becomes the reply, and the request is the one `RequestFor` picks |
| `TypingRoom.RoomView.OnRoomCreated` | src/pages/TypingRoom.tsx:138-154 | the local room becomes the one-player created room, and its id is stored |
| `TypingRoom.RoomView.OnPlayerJoined` | src/pages/TypingRoom.tsx:156-165 | the player list is replaced only when the event's room id is the local one, with every other field kept; the stored id becomes the event's id in any case |
| `TypingRoom.RoomView.OnGameReset` | src/pages/TypingRoom.tsx:167-175 | ready is emptied and status set to waiting; id, text and players are kept; the countdown is reset and not triggered |
| `TypingRoom.RoomView.OnPlayerStats` | src/pages/TypingRoom.tsx:180-187 | an event with one's own id is ignored; any other overwrites the stored opponent stats |

## Left out

- Socket transport is not modelled. This covers listener registration and removal, the `setPlayerId` and `getRoomData` emissions, and the effect at src/pages/TypingRoom.tsx:93-203 re-running when its dependencies change. The server-side room registry is not part of this model either. Requests and messages are returned as values.
- The listener's room id is fixed when a `RoomView` is built. The model does not capture re-reading it from local storage when the effect re-runs.
- The preparation countdown (`useCounter`) is not part of this model. It is only an integer `counter` that gates keys, plus the `ResetTimer` command on `gameReset`. The one-second `setTimeout` before the start and the status-driven start at src/pages/TypingRoom.tsx:205-209 are left out for the same reason.
- `TypingRoom.RoomView.OnPlayerJoined`, `TypingRoom.RoomView.OnGameReset`: with no room held, the source spreads `null` into a partial room object. The model leaves the room absent instead.
- `RaceMetrics.CalculateStats` requires the position to equal the buffer length. Both controllers keep this as an invariant. A zero position with a non-empty buffer would give `-Infinity` accuracy in the source, and that is not modelled.
- Effects that run at mount are not modelled. One example is the completion of an empty passage at mount.
- `fetch` is I/O: `saveStats`, the leaderboard fetch and its loading and error states. A save is returned as a `SaveRequest`, and its response and failure logging are left out.
- Local storage is a field (`storedRoomId`). Search parameters, `Date.now()` and the random passage choice become parameters.
- Presentation is left out: audio playback, the sound toggle, focus, dialogs, themes, font size, the settings panel, Tab's `preventDefault`, the space margin class, rank icons and the status banner.
- Binary floating point is not modelled. Scores, WPM and accuracy are exact, so halfway cases may round differently from IEEE-754 doubles. `NaN` and `Infinity` appear only through the explicit guards.
- Strings are sequences of Unicode code points. JavaScript measures key and text lengths in UTF-16 units, so keys outside the Basic Multilingual Plane, which the source ignores as two units long, are not told apart.
- `Leaderboard.SortByScore` does not say how equal scores are ordered. The JavaScript sort is stable.
- `src/pages/Rooms.jsx` (room-creation form, toasts, schema validation) and `src/app/PracticeRoom/page.tsx` (layout) are not part of this model.

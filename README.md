# koblox leaderboard and game rules, in Dafny

This project models the core of the koblox mini-game site. The main part is the Express
leaderboard backend:

- the zod schemas that validate a score submission (`nickname`, `game`, `score`);
- the lowdb JSON-file store with its one-time lazy initialisation;
- the two controllers: `GET` lists the top scores, optionally filtered by game and capped
  by a limit; `POST` validates, appends, writes the file and answers 201 or 400;
- the error-handling middleware.

It also models the client-side rules around it:

- the zustand game and auth stores;
- the nickname modal's validation;
- the memory-match game, including its card-click state machine;
- the integer and boolean rules of the two Phaser scenes (jump runner, star collector).

Pure logic is written as functions and lemmas. Code that updates state in place is written
as classes whose methods say their whole new state:

- the lowdb object and the storage module;
- the stores and the modal;
- the memory-match component;
- the two scenes.

Every operation's contract is tied to a partner property:

- submission validation: an iff-characterisation of acceptance and of each field error;
- the query: sortedness, permutation, stability and "nothing left out outscores what is shown";
- the memory-match reducers: one invariant that every reachable state keeps. From it, at
  most 8 pairs are matched and a complete game has every card matched;
- the scenes: their `Valid()` invariants. The speed formula, the timer bounds, the
  30-tick limit and scores in multiples of 10 are among what stays true.

Conventions:

- Strings are `seq<char>`, and a Dafny `char` is one Unicode scalar value. Nickname
  lengths are JavaScript's `length`, counted in UTF-16 code units by
  `LeaderboardTypes.Utf16Length`: an emoji face is one `char` and two code units.
- A JSON request body is the `Json` datatype, and numbers are reals.
- The clock, `randomUUID`, `Math.random` and `Phaser.Math.Between` become parameters of
  the operations that use them (`now`, `id`, a shuffled deck, a bounded `roll`).

The `limit` rule `Math.min(Number(limit) || 10, 50)` turns 0 into the default 10 and has
no lower bound, so a negative limit slips past the cap of 50 that the `Math.min` evidently
intends. The model follows the code as written (`EffectiveLimit`, `Query`); a limit
clamped into [1, 50] is modelled beside it as the corrected half of the finding below.

## Model

| member | source | states |
|---|---|---|
| GameIds.FromName | my-react-app/my-express-api/src/types/leaderboard.ts:3 | the game enum accepts exactly `star`, `memory`, `jump`; a found id has that name, and no id has the name of a rejected string |
| GameIds.NameRoundTrip | my-react-app/my-express-api/src/types/leaderboard.ts:3-4 | every game id parses back from its own name |
| LeaderboardTypes.CustomMessage | my-react-app/my-express-api/src/types/leaderboard.ts:8-16 | exactly the too-short, too-long, bad-character and too-large checks carry the schema's own Korean messages |
| LeaderboardTypes.NicknameIssues | my-react-app/my-express-api/src/types/leaderboard.ts:6-10 | no issue iff 2 ≤ length ≤ 12, the length in UTF-16 code units, and every character is a Hangul syllable, ASCII letter or digit; each of the three checks is reported iff it fails, all of them together |
| LeaderboardTypes.Utf16Length | my-react-app/my-express-api/src/types/leaderboard.ts:8-9 | the `length` that `min(2)` and `max(12)` measure: between the number of characters and twice that, equal to it when every character is in the Basic Multilingual Plane and larger when one is not |
| LeaderboardTypes.Utf16LengthAppend | my-react-app/my-express-api/src/types/leaderboard.ts:8-9 | the length of a concatenation is the sum of the lengths |
| LeaderboardTypes.SupplementaryCharCountsTwice | my-react-app/my-express-api/src/types/leaderboard.ts:8-10 | a nickname of one character above U+FFFF passes both length checks and fails only the character class |
| LeaderboardTypes.ParseNickname | my-react-app/my-express-api/src/types/leaderboard.ts:6-10 | succeeds iff the field is a string the nickname rules accept, with that string as value; a missing key fails with exactly the required issue, a non-string value with exactly the type issue, and a string the rules refuse with exactly its failing checks (`NicknameIssues`) |
| LeaderboardTypes.ParseGameId | my-react-app/my-express-api/src/types/leaderboard.ts:3 | succeeds iff the field is one of the three names, with the id of that name; a missing key fails with the required issue, a non-string with the type issue, any other string with the enum issue |
| LeaderboardTypes.ScoreIssues | my-react-app/my-express-api/src/types/leaderboard.ts:12-16 | no issue iff the number is an integer in [0, 999999]; not-integer, negative and too-large are each reported iff they hold |
| LeaderboardTypes.ParseScore | my-react-app/my-express-api/src/types/leaderboard.ts:12-16 | succeeds iff the field is a number that is an integer in [0, 999999], with that integer; a missing key fails with exactly the required issue, a non-number with exactly the type issue, and a refused number with exactly its failing checks (`ScoreIssues`) |
| LeaderboardTypes.CollectFieldErrors | my-react-app/my-express-api/src/types/leaderboard.ts:18-22 | a field's key is present iff that field has issues, and it maps to exactly those issues; no other key occurs |
| LeaderboardTypes.ParseSubmission | my-react-app/my-express-api/src/types/leaderboard.ts:18-22 | succeeds iff the body is an object whose three fields all parse, with those values; a non-object body fails with no field errors; an object body fails with every failing field named |
| LeaderboardTypes.SubmissionAcceptedIff | my-react-app/my-express-api/src/types/leaderboard.ts:6-22 | a body of a string nickname, string game and number score is accepted iff the nickname is valid, the game is known and the score is an integer in [0, 999999]; the accepted submission carries those values |
| LeaderboardTypes.RejectionNamesEveryFailingField | my-react-app/my-express-api/src/types/leaderboard.ts:18-22 | a rejected object names a field iff that field fails on its own, and names no other key |
| LeaderboardTypes.ShortNicknameRejected | my-react-app/my-express-api/src/types/leaderboard.ts:8 | a one-letter nickname with a valid game and score is rejected with only the too-short issue on `nickname` |
| LeaderboardTypes.ScoreOverMaxRejected | my-react-app/my-express-api/src/types/leaderboard.ts:16 | a score of 1000000 with a valid nickname and game is rejected with only the too-large issue on `score` |
| LeaderboardTypes.NumericStringScoreRejected | my-react-app/my-express-api/src/types/leaderboard.ts:13 | the string "100" is no score: a type error, without coercion |
| Storage.Low.constructor | my-react-app/my-express-api/src/utils/storage.ts:7-8 | the database starts with the default data `{ entries: [] }` over the given file, nothing read or written |
| Storage.Low.Read | my-react-app/my-express-api/src/utils/storage.ts:14 | after a read, `data` is the file's content (null for a missing file), and the file is unchanged |
| Storage.Low.Write | my-react-app/my-express-api/src/controllers/leaderboardController.ts:55 | after a write, the file holds `data`, and `data` is unchanged |
| Storage.Storage.constructor | my-react-app/my-express-api/src/utils/storage.ts:7-10 | the module starts uninitialised with a fresh database over the file |
| Storage.Storage.GetDb | my-react-app/my-express-api/src/utils/storage.ts:12-19 | returns the one database, now initialised with non-null data; the first call reads the file once, and a missing file gives `{ entries: [] }`; later calls read nothing and change nothing; no call writes |
| LeaderboardController.EffectiveLimit | my-react-app/my-express-api/src/controllers/leaderboardController.ts:9 | a missing or zero limit gives 10; a limit from 1 to 50 is kept; a larger one gives 50; a negative one passes through; never 0 and never above 50 |
| LeaderboardController.SliceEnd | my-react-app/my-express-api/src/controllers/leaderboardController.ts:19 | `slice(0, end)` keeps min(end, length) for a non-negative end, and length + end (at least 0) for a negative one |
| LeaderboardController.FilterGame | my-react-app/my-express-api/src/controllers/leaderboardController.ts:14-16 | every stored entry of the given game is kept, as often as it is stored, and no other entry is kept |
| LeaderboardController.FilterWithScore | my-react-app/my-express-api/src/controllers/leaderboardController.ts:15 | filtering keeps stored order: for every score, the kept entries with that score are the stored entries with that score of the game, in stored order |
| LeaderboardController.Selected | my-react-app/my-express-api/src/controllers/leaderboardController.ts:12-16 | the copy the handler sorts holds every matching stored entry (all of them without a game) as often as it is stored, and nothing else |
| LeaderboardController.SelectedSize | my-react-app/my-express-api/src/controllers/leaderboardController.ts:12-16 | the copy has exactly as many entries as there are matching stored entries |
| LeaderboardController.SelectedWithScore | my-react-app/my-express-api/src/controllers/leaderboardController.ts:12-16 | for every score, the copy's entries with that score are the matching stored ones with that score, in stored order |
| LeaderboardController.FilterUnknownGame | my-react-app/my-express-api/src/controllers/leaderboardController.ts:14-16 | filtering by a name no game has keeps nothing |
| LeaderboardController.SortProperties | my-react-app/my-express-api/src/controllers/leaderboardController.ts:18 | the sort by descending score is ordered, is a permutation of its input, and keeps entries of equal score in their stored order (stable sort) |
| LeaderboardController.SortByScore | my-react-app/my-express-api/src/controllers/leaderboardController.ts:18 | the sort keeps the length of its input (its order, permutation and stability are `SortProperties`) |
| LeaderboardController.Query | my-react-app/my-express-api/src/controllers/leaderboardController.ts:9-19 | the listing is never longer than the matching entries (its exact length, order and top-ness are the `Query…` lemmas) |
| LeaderboardController.QueryIsSlicedSort | my-react-app/my-express-api/src/controllers/leaderboardController.ts:9-19 | the listing is a prefix of the sorted selection, whose length is the number of matching stored entries; the listing has the length `slice` gives: for a limit from 1 to 50 that is min(limit, matches), for a negative limit matches + limit (at least 0) |
| LeaderboardController.QueryOnlyThatGame | my-react-app/my-express-api/src/controllers/leaderboardController.ts:14-16 | with a game filter every listed entry is of that game |
| LeaderboardController.QueryUnknownGameEmpty | my-react-app/my-express-api/src/controllers/leaderboardController.ts:14-16 | an unknown game name lists nothing |
| LeaderboardController.QueryWithoutFilter | my-react-app/my-express-api/src/controllers/leaderboardController.ts:14 | with no game or an empty one, the listing is a prefix of the sort of all entries |
| LeaderboardController.QueryOrderedAndStable | my-react-app/my-express-api/src/controllers/leaderboardController.ts:18-19 | the listing is in non-increasing score order, and for every score its entries with that score are the first of the matching stored entries with that score, in stored order |
| LeaderboardController.QueryIsTop | my-react-app/my-express-api/src/controllers/leaderboardController.ts:12-19 | the listing is drawn from the stored entries and holds only matching ones, and no matching stored entry left out outscores a listed one |
| LeaderboardController.ScenarioTwoStarEntries | my-react-app/my-express-api/src/controllers/leaderboardController.ts:14-19 | Alice (star, 100) then Bob (star, 200), queried for star with limit 10, list as Bob then Alice |
| LeaderboardController.NegativeLimitExceedsCap | my-react-app/my-express-api/src/controllers/leaderboardController.ts:9-19 | with more than 51 matches, `limit=-1` lists all of them but one: more than 50 |
| LeaderboardController.ClampedLimit | my-react-app/my-express-api/src/controllers/leaderboardController.ts:9 | the corrected limit is always in [1, 50]: 10 for a missing or zero limit, below 1 clamped to 1, above 50 clamped to 50, and equal to the as-written `EffectiveLimit` for every positive limit |
| LeaderboardController.ClampedQueryBounded | my-react-app/my-express-api/src/controllers/leaderboardController.ts:9-19 | the corrected listing is a prefix of the sorted selection of length min(limit, matches), never above 50 and non-empty when anything matches; it is equal to the as-written `Query` whenever the limit is missing or non-negative |
| LeaderboardController.ValidationReply | my-react-app/my-express-api/src/controllers/leaderboardController.ts:32-39 | the rejection reply is a 400 whose body repeats the status, carries `VALIDATION_ERROR` and the field errors |
| LeaderboardController.GetLeaderboard | my-react-app/my-express-api/src/controllers/leaderboardController.ts:7-27 | the reply is 200 with the query over the stored entries and the success message; the stored entries and the file are unchanged, nothing is written, and the file is read only if the store was not yet initialised |
| LeaderboardController.SubmitScore | my-react-app/my-express-api/src/controllers/leaderboardController.ts:29-63 | a rejected body gives the 400 reply with its field errors and changes nothing; an accepted one appends exactly one entry with the parsed values, writes the whole data to the file once, reads the file only if the store was not yet initialised, and replies 201 with that entry |
| LeaderboardController.SubmitThenRestart | my-react-app/my-express-api/src/utils/storage.ts:12-19 | an accepted entry is in the entries a freshly started server loads from the file |
| ErrorHandler.HandleError | my-react-app/my-express-api/src/middleware/errorHandler.ts:8-34 | the HTTP status equals the body's status and is never 0; a missing or zero status gives 500; empty or missing message and code give the defaults, otherwise they pass through; the stack is present iff the environment is `development` and the error has one |
| ErrorHandler.NoStackOutsideDevelopment | my-react-app/my-express-api/src/middleware/errorHandler.ts:32 | outside development the body has no stack, and is the body development would give for the same error without a stack |
| GameStore.InitialScores | my-react-app/src/stores/useGameStore.ts:13-17 | every game starts at score 0 |
| GameStore.GameStore.constructor | my-react-app/src/stores/useGameStore.ts:22-23 | the nickname starts empty and the session scores start at the initial scores |
| GameStore.GameStore.SetNickname | my-react-app/src/stores/useGameStore.ts:24 | sets the nickname and nothing else |
| GameStore.GameStore.SetScore | my-react-app/src/stores/useGameStore.ts:25-28 | sets that game's score; the other games' scores and the nickname are unchanged |
| GameStore.GameStore.ResetSession | my-react-app/src/stores/useGameStore.ts:29 | every session score back to 0; the nickname is kept |
| GameStore.GameStore.Partialize | my-react-app/src/stores/useGameStore.ts:33 | the persisted part is the nickname alone |
| AuthStore.AuthStore.constructor | my-react-app/src/stores/useAuthStore.ts:13-21 | the store starts in the initial state: no user, not authenticated, not loading, no error |
| AuthStore.AuthStore.SetUser | my-react-app/src/stores/useAuthStore.ts:22 | replaces the user and nothing else |
| AuthStore.AuthStore.SetIsAuthenticated | my-react-app/src/stores/useAuthStore.ts:23 | replaces the flag and nothing else |
| AuthStore.AuthStore.SetIsLoading | my-react-app/src/stores/useAuthStore.ts:24 | replaces the flag and nothing else |
| AuthStore.AuthStore.SetError | my-react-app/src/stores/useAuthStore.ts:25 | replaces the error and nothing else |
| AuthStore.AuthStore.Logout | my-react-app/src/stores/useAuthStore.ts:26 | clears user, authentication and error; the loading flag is kept |
| AuthStore.AuthStore.Reset | my-react-app/src/stores/useAuthStore.ts:27 | back to the initial state |
| NicknameModal.Validate | my-react-app/src/components/game/NicknameModal.tsx:13-18 | empty iff the nickname is acceptable; otherwise the first failing check's message, in the order too short, too long, bad characters, with lengths in UTF-16 code units |
| NicknameModal.ValidateAgreesWithServer | my-react-app/src/components/game/NicknameModal.tsx:13-18 | the modal accepts a nickname iff the server's schema does; when it refuses, the server reports the corresponding issue |
| NicknameModal.SupplementaryCharMessages | my-react-app/src/components/game/NicknameModal.tsx:13-18 | one character above U+FFFF gets the character-class message, and eleven or more characters followed by one get the too-long message |
| NicknameModal.NicknameModal.constructor | my-react-app/src/components/game/NicknameModal.tsx:9-11 | the input starts as the stored nickname, with no error |
| NicknameModal.NicknameModal.OnChange | my-react-app/src/components/game/NicknameModal.tsx:61-64 | typing replaces the input and clears the error |
| NicknameModal.NicknameModal.HandleConfirm | my-react-app/src/components/game/NicknameModal.tsx:20-28 | an invalid input sets its message as the error, leaves the stored nickname alone and does not confirm; a valid one stores the input as the nickname and confirms once |
| MemoryMatch.ComputeScore | my-react-app/src/games/memory-match/MemoryMatchGame.tsx:20-24 | the score is in [0, 1000]: 1000 up to 8 moves, 20 less per move after that, 0 from 58 moves on |
| MemoryMatch.ComputeScoreNonIncreasing | my-react-app/src/games/memory-match/MemoryMatchGame.tsx:20-24 | more moves never score more |
| MemoryMatch.PairsTwice | my-react-app/src/games/memory-match/MemoryMatchGame.tsx:4-7 | the unshuffled deck holds each of the eight faces exactly twice and nothing else |
| MemoryMatch.CreateCards | my-react-app/src/games/memory-match/MemoryMatchGame.tsx:6-16 | 16 cards with ids 0..15 in deck order, face down and unmatched, showing the shuffle's faces, each face exactly twice |
| MemoryMatch.ClickReducer | my-react-app/src/games/memory-match/MemoryMatchGame.tsx:43-91 | the reducer keeps the number of cards, counts a move exactly on a second pick, and schedules a completion only for a complete game, with the score for its moves (the per-case results are the pick lemmas) |
| MemoryMatch.MismatchReset | my-react-app/src/games/memory-match/MemoryMatchGame.tsx:95-107 | without a second card the state is unchanged; otherwise the selection is cleared and the board unlocked; cards keep their number, and moves, pairs and completion are unchanged |
| MemoryMatch.InitialStateInv | my-react-app/src/games/memory-match/MemoryMatchGame.tsx:31-39 | the initial state satisfies the invariant of reachable states |
| MemoryMatch.ClickKeepsInv | my-react-app/src/games/memory-match/MemoryMatchGame.tsx:43-91 | every click the guard lets through keeps the invariant: a 16-card deck of pairs, matched cards in whole pairs, `matchedPairs` equal to the number of matched faces, complete iff 8 pairs, selected cards face up and unmatched, locked iff a second card is held |
| MemoryMatch.ResetKeepsInv | my-react-app/src/games/memory-match/MemoryMatchGame.tsx:95-107 | the mismatch reset keeps the invariant |
| MemoryMatch.InvBounds | my-react-app/src/games/memory-match/MemoryMatchGame.tsx:65-66 | in every reachable state at most 8 pairs are matched, and a complete game has every card matched |
| MemoryMatch.FirstPick | my-react-app/src/games/memory-match/MemoryMatchGame.tsx:46-51 | the first pick turns up that card only and records it, without counting a move |
| MemoryMatch.PickWhileSecondHeld | my-react-app/src/games/memory-match/MemoryMatchGame.tsx:53 | while a second card is held the reducer returns the state unchanged |
| MemoryMatch.MatchingPick | my-react-app/src/games/memory-match/MemoryMatchGame.tsx:55-82 | a matching second pick turns up that card and matches both cards of the face, every card otherwise unchanged, counts a move and a pair, clears the selection and unlocks; complete iff 8 pairs, and only then is `onComplete` scheduled with the score for the moves |
| MemoryMatch.MismatchingPick | my-react-app/src/games/memory-match/MemoryMatchGame.tsx:55-90 | a mismatching second pick turns up that card and no other, counts a move, holds it as the second card and locks |
| MemoryMatch.ResetTurnsDownPair | my-react-app/src/games/memory-match/MemoryMatchGame.tsx:95-107 | the timeout turns down exactly the two selected cards, clears the selection and unlocks; without a second card it changes nothing |
| MemoryMatch.MemoryMatchGame.constructor | my-react-app/src/games/memory-match/MemoryMatchGame.tsx:31-39 | the component starts in the initial state of the given deck, nothing scheduled |
| MemoryMatch.MemoryMatchGame.HandleCardClick | my-react-app/src/games/memory-match/MemoryMatchGame.tsx:41-113 | a click on a face-up or matched card, or while locked, changes nothing; otherwise the state becomes the reducer's, a completing match schedules its score, a mismatch schedules one reset; the invariant holds throughout, and a complete game ignores every click |
| MemoryMatch.MemoryMatchGame.MismatchTimeout | my-react-app/src/games/memory-match/MemoryMatchGame.tsx:93-110 | a scheduled reset fires: the state becomes the reset reducer's and the invariant holds |
| MemoryMatch.MemoryMatchGame.HandleRestart | my-react-app/src/games/memory-match/MemoryMatchGame.tsx:115-125 | back to the initial state of a fresh deck: 0 moves, 0 pairs, not complete, no selection, unlocked |
| JumpRunner.SpeedFor | my-react-app/src/games/jump-runner/JumpRunnerScene.ts:108 | the scroll speed is at least 220 for any non-negative score, and exactly 220 below 10 points |
| JumpRunner.SpeedStep | my-react-app/src/games/jump-runner/JumpRunnerScene.ts:108 | every ten points add 20 to the speed |
| JumpRunner.SpeedNonDecreasing | my-react-app/src/games/jump-runner/JumpRunnerScene.ts:108 | the speed never falls as the score grows |
| JumpRunner.NextInterval | my-react-app/src/games/jump-runner/JumpRunnerScene.ts:139-142 | the next obstacle interval is at least 900 and at least roll − 3·score, and is one of the two |
| JumpRunner.NextIntervalShrinks | my-react-app/src/games/jump-runner/JumpRunnerScene.ts:139-142 | a higher score never lengthens the interval, which never exceeds 2200 |
| JumpRunner.JumpRunnerScene.constructor | my-react-app/src/games/jump-runner/JumpRunnerScene.ts:19-28 | the field initialisers: score 0, not over, not on the ground, speed 220, first obstacle after 1500 ms |
| JumpRunner.JumpRunnerScene.Create | my-react-app/src/games/jump-runner/JumpRunnerScene.ts:37-89 | every rule field back to its start, standing on the ground, jump handlers registered |
| JumpRunner.JumpRunnerScene.Jump | my-react-app/src/games/jump-runner/JumpRunnerScene.ts:91-97 | on the ground and not over: vertical velocity −520 and airborne; otherwise nothing changes |
| JumpRunner.JumpRunnerScene.EndGame | my-react-app/src/games/jump-runner/JumpRunnerScene.ts:186-214 | the first call latches game over, unregisters the jump handlers and schedules the scene's `onGameEnd` callback with the score; later calls change nothing |
| JumpRunner.JumpRunnerScene.Update | my-react-app/src/games/jump-runner/JumpRunnerScene.ts:99-171 | after game over nothing changes; otherwise at most one point per frame (when the score timer reaches 100 ms, which then restarts), gravity while airborne, landing stops the fall, an obstacle spawns when its timer reaches the interval (timer back to 0, new interval from the roll and the new score), and the game ends iff an obstacle overlaps; the speed formula and the timer bounds stay true |
| JumpRunner.JumpRunnerScene.ScoreTick | my-react-app/src/games/jump-runner/JumpRunnerScene.ts:103-110 | the score timer gains `delta`; once it reaches 100 ms the score rises by one, the timer restarts at 0 and the speed follows the new score, otherwise score and speed stay |
| JumpRunner.JumpRunnerScene.Fall | my-react-app/src/games/jump-runner/JumpRunnerScene.ts:112-124 | a landing leaves the player on the ground with no vertical velocity; otherwise the player stays airborne and gravity adds 1200·delta/1000 to the velocity |
| JumpRunner.JumpRunnerScene.ObstacleTick | my-react-app/src/games/jump-runner/JumpRunnerScene.ts:135-144 | the obstacle timer gains `delta`; once it reaches the interval one obstacle spawns, the timer restarts at 0 and the interval is drawn from the roll and the current score, otherwise nothing else changes |
| JumpRunner.JumpRunnerScene.Collide | my-react-app/src/games/jump-runner/JumpRunnerScene.ts:147-170 | each overlapping obstacle calls `endGame`, so the game is over afterwards iff it was or some obstacle overlaps, with the score reported once |
| StarCollector.StarCollectorScene.constructor | my-react-app/src/games/star-collector/StarCollectorScene.ts:23-25 | the field initialisers: score 0, 30 seconds, not over, no timers |
| StarCollector.StarCollectorScene.Create | my-react-app/src/games/star-collector/StarCollectorScene.ts:40-123 | score 0, 30 seconds, not over, both timers started |
| StarCollector.StarCollectorScene.EndGame | my-react-app/src/games/star-collector/StarCollectorScene.ts:227-251 | the first call latches game over, removes both timers and reports the score; later calls change nothing |
| StarCollector.StarCollectorScene.Tick | my-react-app/src/games/star-collector/StarCollectorScene.ts:158-168 | while running, one second less, and the game ends exactly when no time is left, otherwise the timers and reports are untouched; after game over nothing changes; at most 30 ticks take effect after `create` |
| StarCollector.StarCollectorScene.SpawnObstacle | my-react-app/src/games/star-collector/StarCollectorScene.ts:135-156 | adds one obstacle unless the game is over |
| StarCollector.StarCollectorScene.Update | my-react-app/src/games/star-collector/StarCollectorScene.ts:170-226 | after game over nothing changes; otherwise each visited star within reach adds 10, and the game ends iff some visited obstacle is within reach; the score stays a non-negative multiple of 10 and time is untouched |
| StarCollector.Count | my-react-app/src/games/star-collector/StarCollectorScene.ts:194-206 | the number of visited stars within reach is at most the number visited, and 0 iff none is |

## Left out

- The HTTP layer is not modelled: Express routing, `asyncHandler`, middleware order, JSON body parsing, `res.json` serialisation and the rate limiter. The handlers take the parsed body and return the reply.
- Storage.Low.Read: lowdb's two-argument constructor keeps the default data when the file is missing, where the model sets `data` to null; `Storage.Storage.GetDb` then installs `{ entries: [] }` either way, so its result is the same.
- `console.error` logging in the error handler is not modelled, because it does not affect the reply.
- Reading and writing the JSON file are abstract (`Storage.Low.Read`, `Storage.Low.Write`). A write failure, a malformed file and a crash mid-write are not modelled, because they are I/O behaviour outside the code.
- Concurrency is not modelled. Requests are one at a time, and an `await` does not interleave with another request. The source has no locking either.
- `randomUUID()` and `new Date().toISOString()` are parameters, so uniqueness of ids is not represented.
- Query parameters: `game` is taken to be absent or a single string, and `limit` to be absent or an integer. An array-valued `game` and a fractional or non-numeric `limit` are not modelled. A non-numeric limit gives `NaN`, and `NaN || 10` gives 10, which is the same as an absent limit.
- Lone surrogates are not modelled: a Dafny `char` is a scalar value, so a JavaScript string holding half of a surrogate pair has no counterpart.
- JumpRunner.JumpRunnerScene.EndGame: `reported` is what is handed to the constructor's `onGameEnd`. The page (src/games/jump-runner/JumpRunnerPage.tsx:33-36) registers the scene class with Phaser and stores its handler in the game registry, which the scene never reads, so whether the page's handler is ever called is outside the scene and not modelled.
- LeaderboardTypes.CustomMessage: zod's own English texts for the checks without a custom message are not reproduced, only which issue is raised; the 400 reply's field errors carry `Issue` values, and the text each would show is `CustomMessage` of that issue, a mapping no reply member applies.
- The axios clients, React rendering, antd components, routing and the Phaser lifecycle component are not modelled.
- The HTML `maxLength={12}` of the nickname input is not modelled, because it is a browser limit and `validate` checks the length anyway.
- The persist middleware's storage format and rehydration are not modelled (`GameStore.GameStore.Partialize` states only what is persisted).
- MemoryMatch.MemoryMatchGame.HandleCardClick: the guard and the mismatch check read the current state, not a stale closure of an earlier render, so races between rapid clicks are not modelled.
- MemoryMatch.MemoryMatchGame.MismatchTimeout: the 300 ms and 900 ms delays are not timed. A scheduled reset or completion is modelled by what it does when it fires.
- The shuffle's fairness (`sort` with a random comparator) is not modelled. The deck is any arrangement of the 16 faces.
- JumpRunner.JumpRunnerScene.Update: positions, `dt`-integrated motion, cloud and obstacle movement and the box collision test are floating-point geometry. Whether the player reaches the ground and which obstacles overlap are inputs, and Phaser's removal of destroyed obstacles during `forEach` is not modelled.
- StarCollector.StarCollectorScene.Update: player movement, distances and obstacle motion are inputs, as above. `star.destroy()` and the off-screen `obs.destroy()` splice the live child array during `getChildren().forEach`, so the child after a destroyed one is not visited that frame (two adjacent stars in reach score 10, not 20); the inputs list only the visited children, so which children are skipped is not derived. The respawn of 12 stars happens inside `getChildren().forEach` while stars are destroyed; it only adds stars and never touches the score, so it is not modelled.
- Text rendering, the timer turning red at 10 seconds, overlays and colours are not modelled.

## Findings

| source | as written | input that shows it | evidently intended | confidence | as-written member | corrected member |
|---|---|---|---|---|---|---|
| my-react-app/my-express-api/src/controllers/leaderboardController.ts:9-19 | `Math.min(Number(limit) \|\| 10, 50)` has no lower bound, so a negative limit reaches `slice(0, limit)` as a negative end and cuts from the end | `GET /api/leaderboard?limit=-1` with 52 matching entries lists 51 of them | a limit clamped into [1, 50], so at most 50 entries | high (not executed) | LeaderboardController.NegativeLimitExceedsCap | LeaderboardController.ClampedQueryBounded |

The handler `LeaderboardController.GetLeaderboard` models the code as written. The
corrected rule, `ClampedLimit` and `ClampedQuery`, is equal to the as-written `Query` for
every missing or non-negative limit (`ClampedQueryBounded`).

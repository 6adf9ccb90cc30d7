# Animal Maths — a verified model of the game engine

Animal Maths is a children's arithmetic game that runs in the browser. This
project models its client-side game engine in Dafny and proves properties of
that model:

- **Difficulty progression** (`difficulty.dfy`): a level from 1 to 5 with two
  streak counters, promoted after five right answers in a row and demoted
  after three wrong ones.
- **Learner record** (`session.dfy`, `use_session.dfy`): the default record,
  and loading it from the browser's key-value store (missing or unparseable
  data falls back to the default; a partial object is spread over it). Also
  saving and resetting it, and the session hook whose every setter computes
  the next record and writes it back. The hook keeps the invariant that the
  in-memory record is what the store would load.
- **Catalogue constants** (`constants.dfy`): the shop items, the sections and
  the token rewards.
- **Multiplication engine** (`multiplication_engine.dfy`): the fact pools
  (single table, mixed tables 2–9, and the "boss" pool of past misses,
  deduplicated in first-miss order). It also covers seeding weights from the
  miss history, the weighted random pick, reweighting after an answer, and the
  deduplicated drill over a round's misses.
- **Timed multiplication screen** (`fast_multiply.dfy`): mode select,
  countdown, the round, the round's settlement into the record (tokens, best
  scores, the last 50 misses), and the miss drill.
- **Practice screen** (`play_screen.dfy`): fetch a problem, type digits,
  submit; rewards, difficulty moves, explanations and retries.
- **Audio queue** (`audio_queue.dfy`): the FIFO of clip URLs and the callbacks
  of its audio elements.
- **Shared types** (`types.dfy`) and **decimal numerals** (`decimal.dfy`): the
  `String(n)` and `parseInt(s, 10)` that the screens rely on.

Code that changes state in place is modelled as classes:

- the audio queue;
- the key-value store;
- the session hook;
- the two screens.

Each class method states its whole new state, as a function of the old one. The
classes follow the program as written, including the two defects under
"## Findings"; the corrected behaviour of each is a separate definition with
its own lemmas (`AudioPlayback.Step`, `FastMultiply.NewBestIffRecord`). The audio queue's lemmas are stated over the intended step.
They hold of the queue object except for the rejected play request of a
stopped clip (`AsWrittenDiffersOnlyOnStaleRejection`). The current clip's
settlement, which is all the draining in `QueuePlaysInOrder` uses, steps the
same either way (`CurrentCompletionAsWritten`).
Pure code (difficulty, constants, the engine's pool construction and
reweighting, the hook's setters) is functions with lemmas. The engine's loops
(`getFactPool`, `pickQuestion`, `getMissDrillQuestions`) are methods with loop
invariants. Each is proved equal to a reference function, and the
properties are proved about that function.

Outside effects become parameters or events:

- `Math.random()` is a parameter `u` in [0, 1).
- `Date.now()` is a parameter `now`.
- A network request is a parameter holding its outcome.
- Each timer is an event: the end of a countdown, the end of a one-second
  wrong-answer flash, and the expiry of the round or drill timer.

Three behaviours of the program worth knowing:

- The practice screen requests an explanation on every wrong answer and has
  no separate first-wrong state. `WRONG` always offers "try again" with the
  same problem.
- The practice screen fetches the next problem only when the celebration is
  dismissed.
- At level 1 (or 5), further wrong (or right) answers keep increasing the
  streak counter rather than resetting it.

## Model

| member | source | states |
|---|---|---|
| Constants.ShopItems | lib/constants.ts:3-46 | six items with distinct ids and positive costs, covering hats, scarves and backgrounds and no accessory |
| Constants.Sections | lib/constants.ts:48-73 | four sections with distinct ids; area-perimeter is not offered |
| Constants.Rewards | lib/constants.ts:75-78 | a first try earns more than a retry, which earns something: 3 and 1 |
| Decimal.DigitChar | components/PlayScreen.tsx:61-63 | `String(digit)` of a key 0–9 is the one decimal character with that value |
| Decimal.NatToString | lib/multiplication-engine.ts:81 | a numeral is a non-empty run of digits, one digit exactly for values below 10 |
| Decimal.ParseNatToString | components/PlayScreen.tsx:72-74 | `parseInt` of a numeral gives back its number (round trip) |
| Decimal.ParseAppendDigit | components/PlayScreen.tsx:61-72 | appending a digit to a digit string multiplies its value by ten and adds the digit |
| Difficulty.UpdateDifficulty | lib/difficulty.ts:8-31 | promotion happens exactly when the fifth right answer in a row lands below level 5, and demotion exactly when the third wrong one lands above level 1; a promotion or demotion resets its counter, otherwise it grows; an answer resets the opposite counter; the level moves by at most one and stays within 1..5 |
| Difficulty.CorrectRunBelowThreshold | lib/difficulty.ts:12-20 | right answers that do not reach five in a row only grow the counter |
| Difficulty.WrongRunBelowThreshold | lib/difficulty.ts:23-30 | wrong answers that do not reach three in a row only grow the counter |
| Difficulty.StreakOfFivePromotes | lib/difficulty.ts:12-20 | completing a run of five right answers below level 5 promotes once and clears both counters |
| Difficulty.FiveRightAnswersPromote | lib/difficulty.ts:12-20 | from a fresh counter, five right answers promote one level |
| Difficulty.StreakOfThreeDemotes | lib/difficulty.ts:23-30 | completing a run of three wrong answers above level 1 demotes once and clears both counters |
| Difficulty.CeilingStreakUnbounded | lib/difficulty.ts:12-20 | at level 5 right answers never promote and the counter keeps counting |
| Difficulty.FloorStreakUnbounded | lib/difficulty.ts:23-30 | at level 1 wrong answers never demote and the counter keeps counting |
| Difficulty.ReplayKeepsLevel | lib/difficulty.ts:8-31 | any sequence of answers keeps a valid level valid and moves it by at most one per answer |
| Session.DefaultSession | lib/session.ts:5-19 | a new learner has no name, no tokens, nothing bought, nothing worn in any category, every section at level 1 with clear counters, and no multiplication data |
| Session.Load | lib/session.ts:21-31 | a missing key or a value that is not a parsed object loads the default record; multiplication data, which the default lacks, can only come from the stored object |
| Session.Serialize | lib/session.ts:33-35 | every field of the record is written, so spreading the stored object over the default gives the record back |
| Session.SaveSession | lib/session.ts:33-35 | the store holds the serialized record under the session key and nothing else changes |
| Session.ResetSession | lib/session.ts:37-40 | the session key is removed, other keys are kept, and the default record is returned |
| Session.LoadAfterSave | lib/session.ts:21-35 | loading after saving gives back exactly the saved record |
| Session.LoadFallsBack | lib/session.ts:21-31 | a missing key or a value that does not parse to an object loads the default record |
| Session.LoadAfterReset | lib/session.ts:21-40 | after a reset the default record loads and every other key is untouched |
| Session.LoadMergesTopLevel | lib/session.ts:27 | a stored object replaces each top-level field it has, whole, and every field it lacks comes from the default |
| UseSession.AddTokens | hooks/useSession.ts:18-24 | the balance changes by the amount and nothing else changes |
| UseSession.UpdateSection | hooks/useSession.ts:26-35 | the section gets the new state, every other section keeps its state, nothing else changes |
| UseSession.PurchaseItem | hooks/useSession.ts:37-50 | refused exactly when the balance is below the cost; otherwise the cost is charged, the balance stays non-negative, the item is appended and nothing else changes |
| UseSession.EquipItem | hooks/useSession.ts:52-61 | the category now holds the item, other categories are kept, nothing else changes |
| UseSession.UnequipItem | hooks/useSession.ts:63-72 | the category is emptied, other categories are kept, nothing else changes |
| UseSession.SetUserName | hooks/useSession.ts:74-80 | the name is replaced and nothing else changes |
| UseSession.UpdateMultiplicationData | components/fast-multiplication/FastMultiplyScreen.tsx:242-245 | the multiplication data is replaced and nothing else changes |
| UseSession.EquipThenUnequip | hooks/useSession.ts:52-72 | unequipping a category undoes equipping it |
| UseSession.UpdateSectionIdempotent | hooks/useSession.ts:26-35 | setting a section's state twice is the same as once |
| UseSession.RepeatPurchaseCharges | hooks/useSession.ts:37-50 | buying an item twice with enough tokens charges twice and lists it twice (no ownership check) |
| UseSession.TokensStayCovered | hooks/useSession.ts:18-50 | over any sequence of setter calls with non-negative credits and prices, the balance never goes negative and never exceeds the start plus the credits |
| UseSession.SessionHook.constructor | hooks/useSession.ts:16 | the hook starts with what the store loads |
| UseSession.SessionHook.Commit | hooks/useSession.ts:19-23 | the next record becomes the hook's record and is written to the store, which then loads it back |
| UseSession.SessionHook.AddTokensAndSave | hooks/useSession.ts:18-24 | the record becomes AddTokens of the old one and is persisted |
| UseSession.SessionHook.UpdateSectionAndSave | hooks/useSession.ts:26-35 | the record becomes UpdateSection of the old one and is persisted |
| UseSession.SessionHook.PurchaseItemAndSave | hooks/useSession.ts:37-50 | a refused purchase changes neither record nor store; an accepted one stores the charged record |
| UseSession.SessionHook.EquipItemAndSave | hooks/useSession.ts:52-61 | the record becomes EquipItem of the old one and is persisted |
| UseSession.SessionHook.UnequipItemAndSave | hooks/useSession.ts:63-72 | the record becomes UnequipItem of the old one and is persisted |
| UseSession.SessionHook.SetUserNameAndSave | hooks/useSession.ts:74-80 | the record becomes SetUserName of the old one and is persisted |
| UseSession.SessionHook.UpdateMultiplicationDataAndSave | components/fast-multiplication/FastMultiplyScreen.tsx:242-245 | the record becomes UpdateMultiplicationData of the old one and is persisted |
| MultiplicationEngine.DedupeKeys | lib/multiplication-engine.ts:116-124 | first-occurrence deduplication keeps every key, has no repeated key and is no longer than its input |
| MultiplicationEngine.DedupeKeepsFirst | lib/multiplication-engine.ts:116-124 | each kept element is the first occurrence of its key |
| MultiplicationEngine.DedupeKeepsOrder | lib/multiplication-engine.ts:116-124 | kept elements appear in the order of their first occurrences |
| MultiplicationEngine.DistinctMissFacts | lib/multiplication-engine.ts:19-34 | the `seen`-set loop builds one fresh fact per distinct missed pair, in first-miss order |
| MultiplicationEngine.MixedPool | lib/multiplication-engine.ts:43-49 | the nested loops build tables 2–9 times 1–10, table by table |
| MultiplicationEngine.CountMisses | lib/multiplication-engine.ts:53-58 | the map has exactly the missed pairs as keys, each counting its misses in the history |
| MultiplicationEngine.GetFactPool | lib/multiplication-engine.ts:12-69 | the returned pool is the mode's base pool with each fact's weight seeded from its miss count |
| MultiplicationEngine.FactPool | lib/multiplication-engine.ts:12-69 | seeding from the history keeps the mode's facts in place, each with its pair and answer; only weights change (the weights themselves are stated by PoolWeights) |
| MultiplicationEngine.SeedWeightRange | lib/multiplication-engine.ts:62-64 | a fact missed at least once starts at weight 2 to 8 |
| MultiplicationEngine.MissCountAbsent | lib/multiplication-engine.ts:59-62 | a pair that is not in the history has count 0 |
| MultiplicationEngine.MissCountPresent | lib/multiplication-engine.ts:55-58 | a pair in the history has a positive count |
| MultiplicationEngine.SinglePoolFacts | lib/multiplication-engine.ts:35-41 | the single-table pool is the table times 1 to 10, in order, with products as answers |
| MultiplicationEngine.MixedUpToFacts | lib/multiplication-engine.ts:43-49 | tables 2..n give 10 per table, distinct pairs, each a fresh fact in range, and every pair in range occurs |
| MultiplicationEngine.MixedPoolFacts | lib/multiplication-engine.ts:35-49 | mixed mode, and single mode without a table, give 80 distinct facts, exactly the pairs 2–9 by 1–10 |
| MultiplicationEngine.FactsOfKeys | lib/multiplication-engine.ts:27-32 | the facts built from misses carry exactly the missed pairs |
| MultiplicationEngine.BossPoolFacts | lib/multiplication-engine.ts:19-34 | the boss pool has exactly the distinct missed pairs, no repeats, and is empty exactly when the history is |
| MultiplicationEngine.BossPoolOrder | lib/multiplication-engine.ts:19-34 | the boss pool lists pairs in the order of their first miss |
| MultiplicationEngine.PoolWeights | lib/multiplication-engine.ts:52-66 | each fact weighs `min(8, 2^count)` if missed and 1 otherwise, so every pool is well formed with weights in [1, 8] |
| MultiplicationEngine.BossWeightsAtLeastTwo | lib/multiplication-engine.ts:19-66 | every boss fact starts at weight 2 or more |
| MultiplicationEngine.Picked | lib/multiplication-engine.ts:71-92 | the weighted pick always lands inside the pool |
| MultiplicationEngine.SumWeights | lib/multiplication-engine.ts:72 | the reduce computes the pool's total weight |
| MultiplicationEngine.PickQuestion | lib/multiplication-engine.ts:71-92 | the subtract-and-test loop with its last-fact fallback asks the question of the fact the weighted pick selects |
| MultiplicationEngine.Selected | lib/multiplication-engine.ts:71-93 | the subtract-and-test scan, with its fallback, always lands on a fact of the pool |
| MultiplicationEngine.SelectFromBound | lib/multiplication-engine.ts:74-92 | the scan returns an index in the pool at or after its start |
| MultiplicationEngine.PrefixBelowTotal | lib/multiplication-engine.ts:72-76 | with positive weights every proper running sum is below the total |
| MultiplicationEngine.SelectFromReaches | lib/multiplication-engine.ts:74-84 | below the total, the scan stops at the first fact whose running sum reaches the target |
| MultiplicationEngine.SelectedIsFirstReaching | lib/multiplication-engine.ts:73-92 | for a target below the total the fallback is never used: the pick is the first fact reaching the target |
| MultiplicationEngine.PrefixMonotone | lib/multiplication-engine.ts:72-76 | running sums strictly increase with positive weights |
| MultiplicationEngine.SelectionSlices | lib/multiplication-engine.ts:73-84 | fact i is picked exactly when the target falls in its slice, whose width is its weight: picks are weight-proportional |
| MultiplicationEngine.AdjustWeights | lib/multiplication-engine.ts:95-110 | only the matching facts change, and only in weight; length, order and every question are kept |
| MultiplicationEngine.AdjustedWeight | lib/multiplication-engine.ts:100-108 | adjusting a weight in [1, 8] keeps it in [1, 8] |
| MultiplicationEngine.AdjustedWeightBounds | lib/multiplication-engine.ts:102-106 | weights stay in [1, 8]; a miss raises a weight below 8 and a right answer lowers one above 1; at the bound they stay |
| MultiplicationEngine.AdjustKeepsValid | lib/multiplication-engine.ts:95-110 | reweighting keeps a well-formed pool well formed and keeps every fact's pair |
| MultiplicationEngine.GetMissDrillQuestions | lib/multiplication-engine.ts:112-126 | the loop and slice return the first `max` distinct missed questions |
| MultiplicationEngine.MissDrill | lib/multiplication-engine.ts:112-126 | the drill is the first min(`max`, n) of the round's n distinct misses, in first-miss order |
| MultiplicationEngine.MissDrillShape | lib/multiplication-engine.ts:112-126 | the drill has at most `max` questions and no more than the misses, is empty exactly when there were no misses or `max` is 0, and drills every missed pair when there are at most `max` of them |
| MultiplicationEngine.MissDrillFirsts | lib/multiplication-engine.ts:112-126 | no pair is drilled twice, and each drill question is the first miss of its pair |
| MultiplicationEngine.MissDrillOrder | lib/multiplication-engine.ts:112-126 | drill questions come in the order of their first miss |
| FastMultiply.RoundTokens | components/fast-multiplication/FastMultiplyScreen.tsx:208 | a round earns one token per three points, rounded down |
| FastMultiply.SettleBest | components/fast-multiplication/FastMultiplyScreen.tsx:217-232 | only the played slot can change, to the larger of its old best and the score; a single round without a table changes nothing |
| FastMultiply.BestNeverDecreases | components/fast-multiplication/FastMultiplyScreen.tsx:217-232 | no best score goes down, and an unbeaten round leaves the best scores unchanged |
| FastMultiply.NewBestIffRecord | components/fast-multiplication/FastMultiplyScreen.tsx:314-325 | judged against the best scores from before the round, "new best" holds exactly when the round changes them |
| FastMultiply.NewBestAfterSettleAsWritten | components/fast-multiplication/FastMultiplyScreen.tsx:314-325 | judged against the record after the round was settled into it, "new best" is always false |
| FastMultiply.FastMultiplyScreen.SummaryNewBest | components/fast-multiplication/FastMultiplyScreen.tsx:314-325 | the summary's `isNewBest` holds exactly when settling the round into the current record would change its best scores |
| FastMultiply.MissRecords | components/fast-multiplication/FastMultiplyScreen.tsx:235-239 | one record per miss, in order, with wrong answer 0 and the round's end time |
| FastMultiply.SettleHistory | components/fast-multiplication/FastMultiplyScreen.tsx:240 | the history becomes the old history followed by the round's miss records, cut to its last 50 records; all of the round's misses are kept when there are at most 50, and the whole old history when everything fits |
| FastMultiply.Settle | components/fast-multiplication/FastMultiplyScreen.tsx:213-245 | the settled history holds the old history and the round's misses, up to 50 records; and no round beats the best scores settled from it |
| FastMultiply.SettleSession | components/fast-multiplication/FastMultiplyScreen.tsx:206-245 | the record gains the round's tokens and the settled multiplication data, and nothing else changes |
| FastMultiply.AdjustKeepsQuestions | components/fast-multiplication/FastMultiplyScreen.tsx:185-194 | reweighting after an answer keeps every pool position's question |
| FastMultiply.PoolNonEmpty | components/fast-multiplication/FastMultiplyScreen.tsx:148-150 | every pool the mode screen can ask for has a fact to pick (boss only with a history) |
| FastMultiply.DrillNonEmpty | components/fast-multiplication/FastMultiplyScreen.tsx:255-256 | a round with misses gets a drill with at least one question |
| FastMultiply.FreshPool | components/fast-multiplication/FastMultiplyScreen.tsx:148 | a new pool is non-empty and well formed |
| FastMultiply.StartRound | components/fast-multiplication/FastMultiplyScreen.tsx:132-152 | the round is reset over the mode's pool, asking the fact the weighted pick lands on, with all counters consistent |
| FastMultiply.FreshRound | components/fast-multiplication/FastMultiplyScreen.tsx:136-145 | a new round has nothing answered, no misses and no flash, and its counters are consistent |
| FastMultiply.Idle | components/fast-multiplication/FastMultiplyScreen.tsx:42-70 | the first render is in mixed mode with no table, an empty pool and every counter zero |
| FastMultiply.Scored | components/fast-multiplication/FastMultiplyScreen.tsx:171-184 | a right answer adds one to answered, score, right answers and streak, lifts the best streak to cover the streak, and keeps the counters consistent |
| FastMultiply.Missed | components/fast-multiplication/FastMultiplyScreen.tsx:169-193 | a wrong answer adds one to answered, breaks the streak, records the miss, and keeps the counters consistent |
| FastMultiply.FastMultiplyScreen.constructor | components/fast-multiplication/FastMultiplyScreen.tsx:38-85 | the screen starts on mode select with nothing played and no pending flash |
| FastMultiply.FastMultiplyScreen.SelectMode | components/fast-multiplication/FastMultiplyScreen.tsx:117-167 | a fresh round for the chosen mode and table, over the pool from the stored misses, with the first weighted pick asked and a countdown to the round |
| FastMultiply.FastMultiplyScreen.CountdownFinished | components/fast-multiplication/FastMultiplyScreen.tsx:158-166 | the countdown leads to the round, or to the drill when it was started for one |
| FastMultiply.FastMultiplyScreen.Answer | components/fast-multiplication/FastMultiplyScreen.tsx:169-204 | a right answer scores, decays the fact's weight and asks the next weighted pick at once; a wrong one records the miss, raises the weight and starts a flash; invariants kept |
| FastMultiply.FastMultiplyScreen.RightAnswer | components/fast-multiplication/FastMultiplyScreen.tsx:173-188 | the round is scored over the decayed pool and asks its weighted pick |
| FastMultiply.FastMultiplyScreen.WrongAnswer | components/fast-multiplication/FastMultiplyScreen.tsx:189-196 | the miss is recorded over the raised pool and the flash shows the missed question |
| FastMultiply.FastMultiplyScreen.FlashFinished | components/fast-multiplication/FastMultiplyScreen.tsx:197-202 | the flash clears and the next weighted pick from the current pool is asked, in whatever phase the timeout fires |
| FastMultiply.FastMultiplyScreen.EndRound | components/fast-multiplication/FastMultiplyScreen.tsx:206-252 | the record is settled (tokens, best scores, misses) and persisted, and the summary shows; a best score rises exactly when the round beat the best from before it, yet the summary's `isNewBest`, judged against the settled record, is false |
| FastMultiply.FastMultiplyScreen.EndDrill | components/fast-multiplication/FastMultiplyScreen.tsx:306-308 | the drill's summary shows |
| FastMultiply.FastMultiplyScreen.TimeUp | components/fast-multiplication/FastMultiplyScreen.tsx:108-115 | the timer ends the round while playing (with the summary's `isNewBest` false), the drill while drilling, and does nothing otherwise |
| FastMultiply.FastMultiplyScreen.RoundEndContinue | components/fast-multiplication/FastMultiplyScreen.tsx:254-279 | with misses, a non-empty drill of the distinct misses follows a countdown; without, back to mode select |
| FastMultiply.FastMultiplyScreen.DrillAnswer | components/fast-multiplication/FastMultiplyScreen.tsx:281-304 | a right answer is corrected and advances, ending the drill after the last question; a wrong one keeps the question and flashes it |
| FastMultiply.FastMultiplyScreen.DrillFlashFinished | components/fast-multiplication/FastMultiplyScreen.tsx:300-302 | only the drill's flash clears |
| FastMultiply.FastMultiplyScreen.DrillEndContinue | components/fast-multiplication/FastMultiplyScreen.tsx:310-312 | back to mode select |
| Play.ExplanationFor | components/PlayScreen.tsx:88-113 | the fetched explanation when the request succeeds; the fixed fallback on a non-ok status or an exception |
| Play.RewardFor | components/PlayScreen.tsx:76 | a retry earns 1, less than a first try; a first try earns 3, more than a retry |
| Play.PressDigit | components/PlayScreen.tsx:61-63 | a digit key appends its character, and the typed value becomes ten times the old plus the digit |
| Play.DropLast | components/PlayScreen.tsx:65-67 | backspace drops the last character and leaves an empty buffer empty |
| Play.BackspaceUndoesDigit | components/PlayScreen.tsx:61-67 | backspace undoes a digit key |
| Play.NumeralIsRight | components/PlayScreen.tsx:72-74 | typing the answer's numeral is judged right |
| Play.LeadingZeroIgnored | components/PlayScreen.tsx:72 | a leading zero does not change the parsed answer |
| Play.NegativeNeverRight | components/PlayScreen.tsx:72-74 | a negative answer can never be typed right |
| Play.PlayScreen.constructor | components/PlayScreen.tsx:22-29 | the first render is loading with nothing typed, no streak and no retry |
| Play.PlayScreen.FetchProblem | components/PlayScreen.tsx:33-55 | requests the given level or else the section's, clears buffer and explanation, and shows the problem or stays loading on failure |
| Play.PlayScreen.HandleDigit | components/PlayScreen.tsx:61-63 | the buffer gets the digit; nothing else changes |
| Play.PlayScreen.HandleBackspace | components/PlayScreen.tsx:65-67 | the buffer loses its last character; nothing else changes |
| Play.PlayScreen.HandleSubmit | components/PlayScreen.tsx:69-121 | nothing without a problem or input; a right answer credits the reward, extends the streak, promotes and celebrates; a wrong one shows the explanation, clears the streak and demotes; each change is persisted |
| Play.PlayScreen.SubmitRight | components/PlayScreen.tsx:74-85 | the record gains the reward and the section's promoted difficulty, the streak grows and the celebration shows the new level |
| Play.PlayScreen.Reward | components/PlayScreen.tsx:76-78 | the reward for a first try or a retry is shown and credited |
| Play.PlayScreen.Promote | components/PlayScreen.tsx:79-85 | the section's difficulty moves as for a right answer and the celebration remembers the new level |
| Play.PlayScreen.SubmitWrong | components/PlayScreen.tsx:86-120 | the explanation or fallback shows, the streak clears and the section's difficulty moves as for a wrong answer |
| Play.PlayScreen.HandleTryAgain | components/PlayScreen.tsx:123-128 | same problem, empty buffer, no explanation, a retry, answering again |
| Play.PlayScreen.HandleCelebrationDismiss | components/PlayScreen.tsx:130-134 | the next problem is a first try at the remembered level (or the section's) and the remembered level is cleared |
| AudioPlayback.Advance | lib/audio-queue.ts:28-51 | `playNext` starts a clip exactly when the head URL is non-empty, as the newest clip, shifting it off; otherwise it goes idle, shifting off an empty URL |
| AudioPlayback.Step | lib/audio-queue.ts:6-51 | the intended step: each event starts at most one clip and forgets none, marks a settling clip settled, and a stopped clip's settlement starts nothing |
| AudioPlayback.StepAsWritten | lib/audio-queue.ts:6-51 | the program's step: each event starts at most one clip and forgets none, marks a settling clip settled, and a stopped clip's end or error starts nothing, while its rejected play request does |
| AudioPlayback.CurrentCompletionAsWritten | lib/audio-queue.ts:13-50 | the current clip is never stopped, so its settlement steps the same as written and as intended, and the draining of QueuePlaysInOrder is the queue object's own |
| AudioPlayback.StepKeepsValid | lib/audio-queue.ts:6-51 | under the intended step, where a stopped clip's settlement is ignored, every event keeps the queue's invariant: `playing` exactly when a clip is current, and no clip but the current one is audible |
| AudioPlayback.EnqueueStartsOrAppends | lib/audio-queue.ts:6-11 | enqueueing while playing only appends; while idle it starts the URL at once |
| AudioPlayback.CompletionStartsHead | lib/audio-queue.ts:28-46 | when the current clip settles, the head of the queue starts, or the queue goes idle when empty |
| AudioPlayback.QueuePlaysInOrder | lib/audio-queue.ts:28-51 | letting clips finish plays every queued URL once, in enqueue order, and then goes idle |
| AudioPlayback.StopSilences | lib/audio-queue.ts:13-22 | stop empties the queue and silences every clip; under the intended step, a later settlement of the stopped clip changes nothing (as written, a rejected play request still advances: see Findings) |
| AudioPlayback.ClearKeepsCurrent | lib/audio-queue.ts:24-26 | clear keeps the current clip playing, after which the queue goes idle |
| AudioPlayback.EmptyUrlHalts | lib/audio-queue.ts:29-34 | an empty URL at the head halts the queue with the rest still queued, until the next enqueue restarts it |
| AudioPlayback.StaleRejectionAsWritten | lib/audio-queue.ts:48-50 | as written, a rejection of a stopped clip's play request advances the queue, so two clips become audible |
| AudioPlayback.StaleRejectionIgnored | lib/audio-queue.ts:13-22 | when a stopped clip's settlement is ignored, the new clip keeps playing and the invariant holds |
| AudioPlayback.DetachedCompletionInert | lib/audio-queue.ts:16-17 | under the intended step, a stopped clip's settlement only marks it settled; as written this holds for `onended` and `onerror`, whose callbacks stop clears |
| AudioPlayback.AsWrittenDiffersOnlyOnStaleRejection | lib/audio-queue.ts:13-50 | the program's step and the intended step differ only on a rejected play request of a stopped clip |
| AudioPlayback.AudioQueue.constructor | lib/audio-queue.ts:1-4 | a new queue is idle and empty |
| AudioPlayback.AudioQueue.Enqueue | lib/audio-queue.ts:6-11 | the fields step as an enqueue event: pushed, and played at once when idle |
| AudioPlayback.AudioQueue.Stop | lib/audio-queue.ts:13-22 | the fields step as a stop event |
| AudioPlayback.AudioQueue.Clear | lib/audio-queue.ts:24-26 | the fields step as a clear event |
| AudioPlayback.AudioQueue.PlayNext | lib/audio-queue.ts:28-51 | the fields advance to the head URL, or go idle |
| AudioPlayback.AudioQueue.OnComplete | lib/audio-queue.ts:40-50 | a clip settling steps the fields as the program does: an end or error of a stopped clip only marks it settled, while a rejected play request advances the queue even for a stopped clip |

## Left out

- The network requests for problems, explanations and speech are left out. The responses the screens consume are parameters: a problem or a failure, and an explanation, a non-ok status or an exception.
- Timers are events, not time. The 60- and 30-second durations, the 800 ms countdown ticks and the countdown's displayed value are not modelled.
- Sound effects, audio unlocking and text-to-speech are left out: they do not feed back into the game state.
- Floating-point arithmetic is not modelled. Weights are exact reals, so `w * 0.7` and `Math.random() * total` carry no rounding.
- React's render scheduling is not modelled. Each handler runs atomically on the state of the latest render, and functional updaters run once.
- A submit that lands while an explanation request is in flight is not modelled: handleSubmit is atomic over its await.
- JSON is modelled only at the top level. A stored value is unparseable, a non-object, or an object with each top-level field present or absent. Fields of the wrong type are not modelled.
- Integers are unbounded. `parseInt` beyond 2^53 and `Math.pow` overflow are not modelled.
- `updateMultiplicationData` is called by the timed screen but hooks/useSession.ts does not define it. It is modelled by analogy with the other setters: replace the field and save.
- FastMultiply.FastMultiplyScreen.constructor: requires the record to have multiplication data, which the screen asserts with `!` (FastMultiplyScreen.tsx:40). The default record has none, and what the screen does without it is not modelled.
- Play.PlayScreen.constructor: the section is required to have a difficulty entry. The default record has one for every section; a stored record whose `sections` lacks it is not modelled.
- FastMultiply.FastMultiplyScreen.SelectMode: the boss mode requires a non-empty miss history, because the mode screen disables that button otherwise (ModeSelect.tsx:56).
- FastMultiply.FastMultiplyScreen.Answer: requires that no wrong-answer flash is showing, because the pad is disabled during it (GamePlay.tsx:49). FastMultiply.FastMultiplyScreen.DrillAnswer likewise (MissDrill.tsx:78).
- FastMultiply.FastMultiplyScreen.DrillAnswer: the guard `if (!currentQ) return` is unreachable, since a running drill always has a current question, so it is not modelled.
- AudioPlayback.Step: a clip settles at most once in the model. A clip whose `onerror` fires and whose `play()` is also rejected would advance the queue twice; that double settlement is not modelled.
- MultiplicationEngine.PickQuestion: requires a non-empty pool. On an empty pool the source's loop picks nothing, the fallback's last fact is undefined, and reading its fields throws a TypeError; the only route to it, boss mode with an empty history, is excluded at SelectMode.
- AudioPlayback.AudioQueue: the audio elements are opaque handles. Media loading and buffering are not modelled.
- The shop and collection screens, the explore screen, the API routes, the prompts and the knowledge base are not part of this model.

## Findings

| source | as written | input that shows it | evidently intended | confidence | as-written member | corrected member |
|---|---|---|---|---|---|---|
| lib/audio-queue.ts:48-50 | `stop()` clears a clip's `onended`/`onerror` but not its `play().catch` callback, which still calls `playNext()` | enqueue "a", stop, enqueue "b", then a's pending `play()` is rejected (pausing aborts it), then enqueue "c": b and c play at once | a stopped clip's settlement is ignored, as its other callbacks are | not executed | AudioPlayback.StaleRejectionAsWritten | AudioPlayback.StaleRejectionIgnored |
| components/fast-multiplication/FastMultiplyScreen.tsx:314-325 | `isNewBest` compares the score with the best scores of the current render, which on the summary screen already include this round's settlement | a mixed round scoring 12 over a best of 5: endRound stores 12, and the summary compares 12 > 12 | the summary celebrates when the round beat the best from before it | not executed; relies on `updateMultiplicationData` replacing the data as the other setters do | FastMultiply.NewBestAfterSettleAsWritten | FastMultiply.NewBestIffRecord |

# Moodimello child game layer in Dafny

Moodimello is a web application that helps children practise naming and handling emotions, with a companion side for parents. This project models its child-side game layer and two small parent-side helpers:

- four mini-games, each a state machine driven by clicks, key presses and timers:
  - **Breathing Dragon**: a paced-breathing countdown.
  - **Space Adventure**, called Space Slider here: catch falling shapes in the lane their colour asks for.
  - **Feelings Quest**: five story scenarios with scored responses.
  - **Mood Mirror**: name the emotion of six situations.
- the **child session**. It holds the screen state and the progression ledger, which is the star total and the de-duplicated badge list that game completions feed.
- the **mini-game hub**, whose star thresholds unlock games.
- the parent's **conversation-prompt bookmarks** and category colours.
- **Moodie**, the parent chatbot: a keyword classifier over an append-only message log.

Every component whose source updates state step by step is a `class` with the component's state fields. Its methods implement the handlers, and each method is proved equal to a pure step function over a snapshot datatype (`State()`). Each step function preserves an invariant (`Inv`, read through `Valid()`). The lemmas about the step functions state what the component promises.

Timers are explicit methods that the environment calls in order:
- Breathing Dragon's 1 s interval: `Tick`.
- Space Slider's 50 ms interval and 1.5 s feedback timeout: `FallTick` and `FeedbackDone`.
- Feelings Quest's 3 s timeout: `AdvanceAfterDelay`.
- The chatbot's 1 s reply delay: `DeliverReply`.

Random shape colours are a parameter. Whole sessions are models too:
- `Run` iterates Breathing Dragon's tick.
- `Play` and `PlayFrom` play rounds and scenarios.

Every floating-point reward formula is computed exactly in integers:
- `floor(score / 12 * 5)` is `score * 5 / 12`.
- `Math.round(total / 15 * 100 / 100 * 5)` is the nearest integer to `total / 3`, which is never a half.
- `percentage >= 80` is `total >= 12`.

Files:
- `rewards.dfy`: `Option`, and the `Reward(stars, badge)` that a game hands to its host.
- `breathing_dragon.dfy`, `space_slider.dfy`, `feelings_quest.dfy`, `mood_mirror.dfy`: the games.
- `progression.dfy`: the child session and ledger.
- `game_hub.dfy`: the hub.
- `bookmarks.dfy`: the conversation prompts.
- `chatbot.dfy`: the parent chatbot.

## Model

| member | source | states |
|---|---|---|
| BreathingDragon.StartStep | src/components/games/BreathingDragonGame.tsx:226-228 | Defines the Start button: only `isPlaying` is set; StartKeepsInv and SessionRun state its effect |
| BreathingDragon.TickStep | src/components/games/BreathingDragonGame.tsx:28-61 | Defines one interval firing: the idle guard, the countdown, the phase reloads 2/4/2/4 and the completion branch; TickKeepsInv, TickPhaseOrder and TickReward state its properties |
| BreathingDragon.DragonSize | src/components/games/BreathingDragonGame.tsx:63-73 | Defines the dragon scale per phase, in tenths; DragonSizeBounds and DragonSizeTick state its range and rate |
| BreathingDragon.InitialInSession | src/components/games/BreathingDragonGame.tsx:20-26 | The game starts stopped, in round 0, inhaling, with the countdown at 4, and in a state the invariant admits |
| BreathingDragon.StartKeepsInv | src/components/games/BreathingDragonGame.tsx:226-228 | Pressing Start keeps the round/phase/countdown invariant |
| BreathingDragon.TickKeepsInv | src/components/games/BreathingDragonGame.tsx:28-61 | Every tick keeps round in [0, 3) and the countdown within the phase's duration (or at the completion point) |
| BreathingDragon.TickIdle | src/components/games/BreathingDragonGame.tsx:28-29 | A tick while not playing changes nothing and reports nothing |
| BreathingDragon.TickCountsDown | src/components/games/BreathingDragonGame.tsx:33-56 | A tick with a countdown above 1 only decrements it |
| BreathingDragon.TickPhaseOrder | src/components/games/BreathingDragonGame.tsx:33-53 | Phases move only to the next of inhale→hold→exhale→rest→inhale; entering a phase reloads that phase's duration; the round grows only by one, when a rest ends |
| BreathingDragon.TickReward | src/components/games/BreathingDragonGame.tsx:44-48 | A reward is reported exactly when the third round's rest ends, it is always (5, 🐉), and play stops |
| BreathingDragon.TickTimerZero | src/components/games/BreathingDragonGame.tsx:33-56 | Within a session the countdown never goes negative and reaches 0 exactly in the completion branch |
| BreathingDragon.RunAdd | src/components/games/BreathingDragonGame.tsx:31-58 | Running a + b ticks is running a ticks then b ticks, with the rewards concatenated |
| BreathingDragon.RunPrefix | src/components/games/BreathingDragonGame.tsx:31-58 | The rewards of a shorter run are a prefix of those of a longer one |
| BreathingDragon.Countdown | src/components/games/BreathingDragonGame.tsx:33-56 | From a countdown of k + 1, k ticks only count down to 1 |
| BreathingDragon.PhaseRun | src/components/games/BreathingDragonGame.tsx:33-53 | A whole phase (other than the last rest) takes exactly its duration in ticks and leads to the next phase |
| BreathingDragon.BreatheToRest | src/components/games/BreathingDragonGame.tsx:33-43 | Inhale, hold and exhale of a round take 10 ticks |
| BreathingDragon.RoundRun | src/components/games/BreathingDragonGame.tsx:33-53 | A round before the last takes 12 ticks and starts the next round's inhale |
| BreathingDragon.SessionRun | src/components/games/BreathingDragonGame.tsx:26-56 | After Start, 35 ticks report nothing; the 36th reports the single reward (5, 🐉) and stops with the countdown at 0 |
| BreathingDragon.NoEarlyReward | src/components/games/BreathingDragonGame.tsx:44-48 | No tick before the 36th reports a reward |
| BreathingDragon.IdleRun | src/components/games/BreathingDragonGame.tsx:28-29 | Any number of ticks while stopped change nothing |
| BreathingDragon.RestartAfterCompletion | src/components/games/BreathingDragonGame.tsx:44-56 | Restarting after completion and ticking once reports the reward again and drives the countdown to -1 |
| BreathingDragon.DragonSizeBounds | src/components/games/BreathingDragonGame.tsx:63-73 | The dragon's size, in tenths, stays in [10, 18] |
| BreathingDragon.DragonSizeTick | src/components/games/BreathingDragonGame.tsx:63-73 | Within an inhale each tick grows the dragon by 0.2, within an exhale each tick shrinks it by 0.2 |
| BreathingDragon.Game.constructor | src/components/games/BreathingDragonGame.tsx:20-24 | The component's initial fields |
| BreathingDragon.Game.Start | src/components/games/BreathingDragonGame.tsx:226-228 | The Start button sets playing, as StartStep, keeping the invariant |
| BreathingDragon.Game.Tick | src/components/games/BreathingDragonGame.tsx:28-58 | One interval callback: new fields and reported reward equal TickStep, invariant kept |
| SpaceSlider.IsCorrect | src/components/games/SpaceAdventureGame.tsx:105-120 | Defines the correct (colour, lane) pairs of checkAnswer; VerdictTable states there is one per colour |
| SpaceSlider.SpawnStep | src/components/games/SpaceAdventureGame.tsx:62-76 | Defines the spawn effect; SpawnFacts states what it spawns |
| SpaceSlider.StartStep | src/components/games/SpaceAdventureGame.tsx:350-356 | Defines "Launch Mission!" followed by the spawn; InitialInv states the resulting state |
| SpaceSlider.JudgeStep | src/components/games/SpaceAdventureGame.tsx:100-128 | Defines checkAnswer, with the pre-judgment score, lives and round kept for the timeout; JudgeScoresOrCostsLife states its effect |
| SpaceSlider.FallTickStep | src/components/games/SpaceAdventureGame.tsx:79-98 | Defines one fall-interval firing; FallTickFacts and FallToBottom state its effect |
| SpaceSlider.EndReward | src/components/games/SpaceAdventureGame.tsx:133-143 | Defines `max(minimum, floor(score / 12 * 5))` stars and the 🚀 badge from 10 points; EndOfGame and EndOfGameAsWritten state its range |
| SpaceSlider.FeedbackDoneStep | src/components/games/SpaceAdventureGame.tsx:130-148 | Defines the feedback timeout corrected to use the final score; EndOfGame states its endings and rewards |
| SpaceSlider.FeedbackDoneAsWritten | src/components/games/SpaceAdventureGame.tsx:130-148 | Defines the feedback timeout as written, with the score captured before the last judgment; EndOfGameAsWritten states its endings and rewards |
| SpaceSlider.KeyStep | src/components/games/SpaceAdventureGame.tsx:206-226 | Defines the arrow-key handler; InputOnlySnapsSideways states its effect |
| SpaceSlider.DragStartStep | src/components/games/SpaceAdventureGame.tsx:151-154 | Defines mouse down and touch start |
| SpaceSlider.DragMoveStep | src/components/games/SpaceAdventureGame.tsx:156-172 | Defines mouse and touch move with the 50-pixel threshold; InputOnlySnapsSideways states its effect |
| SpaceSlider.DragEndStep | src/components/games/SpaceAdventureGame.tsx:174-176 | Defines mouse up, mouse leave and touch end |
| SpaceSlider.VerdictTable | src/components/games/SpaceAdventureGame.tsx:100-120 | A verdict is correct exactly in the lane the colour asks for (green right, yellow left, red middle), so each colour has one correct lane |
| SpaceSlider.InitialInv | src/components/games/SpaceAdventureGame.tsx:43-76 | The initial state, and the state after Start, satisfy the invariant; Start spawns shape 0 of the chosen colour at the top with 3 lives |
| SpaceSlider.StepsKeepInv | src/components/games/SpaceAdventureGame.tsx:62-226 | Start, fall ticks, key and drag input, and a non-final feedback timeout keep the invariant: score + lives lost = shapes judged, shape id = round, position even in [0, 98], feedback shown iff a timeout is pending |
| SpaceSlider.FeedbackDoneKeepsInv | src/components/games/SpaceAdventureGame.tsx:130-148 | A feedback timeout that does not end the game leaves a state the invariant admits |
| SpaceSlider.LivesOnlyDecrease | src/components/games/SpaceAdventureGame.tsx:48-128 | Lives stay in [0, 3] and no step increases them |
| SpaceSlider.SpawnFacts | src/components/games/SpaceAdventureGame.tsx:62-76 | A spawn puts a shape with id = round and the given colour at position 0 and resets the lane to middle |
| SpaceSlider.JudgeScoresOrCostsLife | src/components/games/SpaceAdventureGame.tsx:100-128 | A judgment adds one point or takes one life, never both or neither, and shows the matching feedback |
| SpaceSlider.FallTickFacts | src/components/games/SpaceAdventureGame.tsx:79-98 | A fall tick moves the shape two units down, or, when it would reach 100, judges it without storing the new position; it judges exactly at position 98 |
| SpaceSlider.InputOnlySnapsSideways | src/components/games/SpaceAdventureGame.tsx:156-226 | Key and drag input only ever move the player to the left or right lane; keys are ignored while not playing or during feedback; the arrow keys select their lane |
| SpaceSlider.InputAfterJudgment | src/components/games/SpaceAdventureGame.tsx:130-220 | Key input after a judgment changes nothing the feedback timeout does, and drag input cannot change the reward it reports |
| SpaceSlider.EndOfGame | src/components/games/SpaceAdventureGame.tsx:130-148 | With the corrected timeout: the game ends exactly when the last life is lost (checked first, at least 2 stars, no badge, at most 3 stars) or round 12 is judged (at least 3 stars); stars always in [2, 5]; badge iff score ≥ 10; otherwise the next round starts |
| SpaceSlider.FallToBottom | src/components/games/SpaceAdventureGame.tsx:79-98 | From position p, (98 − p) / 2 ticks bring the shape to 98 and one more judges it |
| SpaceSlider.RoundIsFallAndFeedback | src/components/games/SpaceAdventureGame.tsx:79-148 | A whole round (RoundStep) is what the fall ticks and the feedback timeout do once the player has chosen a lane |
| SpaceSlider.RoundKeepsFalling | src/components/games/SpaceAdventureGame.tsx:62-148 | A round that does not end the game leaves a new shape falling with the invariant kept |
| SpaceSlider.PlayEnds | src/components/games/SpaceAdventureGame.tsx:59-148 | Whatever the answers, a game ends within 12 rounds |
| SpaceSlider.EndOfGameAsWritten | src/components/games/SpaceAdventureGame.tsx:130-148 | With the timeout as written: the same endings, the out-of-lives ending with 2-3 stars and no badge, the twelfth judgment with 3-4 stars; stars in [2, 4], so never 5; badge iff the score before the last judgment is ≥ 10 |
| SpaceSlider.AllCorrectFrom | src/components/games/SpaceAdventureGame.tsx:130-148 | With the corrected timeout: answering every remaining round right ends after the twelfth with the reward for 12 points |
| SpaceSlider.AllCorrectGame | src/components/games/SpaceAdventureGame.tsx:130-148 | Twelve right answers give 5 stars and the 🚀 badge (with the corrected timeout) |
| SpaceSlider.AllWrongGame | src/components/games/SpaceAdventureGame.tsx:122-138 | Three wrong answers end the game after the third round with 2 stars and no badge |
| SpaceSlider.LastPointLostAsWritten | src/components/games/SpaceAdventureGame.tsx:130-144 | On the state after the twelfth right judgment, the timeout as written gives 4 stars while the final score of 12 earns 5 |
| SpaceSlider.EleventhRoundState | src/components/games/SpaceAdventureGame.tsx:130-148 | Eleven right answers lead to round 11 with score 11 and 3 lives, shape falling |
| SpaceSlider.AllCorrectGameAsWritten | src/components/games/SpaceAdventureGame.tsx:130-144 | A whole game of twelve right answers ends with 4 stars under the timeout as written and 5 under the corrected one |
| SpaceSlider.TwelfthJudgment | src/components/games/SpaceAdventureGame.tsx:100-144 | From round 11 with 11 points and 3 lives, a right twelfth judgment scores 12 but the timeout as written reports 4 stars, the corrected one 5 |
| SpaceSlider.AsWrittenDiffersOnlyAtTheEnd | src/components/games/SpaceAdventureGame.tsx:130-148 | The timeout as written and the corrected one agree on the new state, on whether the game ends, and entirely after a wrong answer |
| SpaceSlider.Game.constructor | src/components/games/SpaceAdventureGame.tsx:43-59 | The component's initial fields |
| SpaceSlider.Game.Spawn | src/components/games/SpaceAdventureGame.tsx:62-76 | The spawn effect, as SpawnStep |
| SpaceSlider.Game.Start | src/components/games/SpaceAdventureGame.tsx:350-356 | "Launch Mission!" and the spawn it triggers, as StartStep, keeping the invariant |
| SpaceSlider.Game.FallTick | src/components/games/SpaceAdventureGame.tsx:79-98 | One fall-interval callback, as FallTickStep, keeping the invariant |
| SpaceSlider.Game.CheckAnswer | src/components/games/SpaceAdventureGame.tsx:100-128 | checkAnswer, as JudgeStep, from a falling shape with no feedback shown; it keeps the invariant and leaves a timeout pending |
| SpaceSlider.Game.FeedbackDone | src/components/games/SpaceAdventureGame.tsx:130-148 | The feedback timeout, as the corrected FeedbackDoneStep (with the post-judgment score), keeping the invariant while the game goes on |
| SpaceSlider.Game.KeyDown | src/components/games/SpaceAdventureGame.tsx:206-226 | The key handler, as KeyStep |
| SpaceSlider.Game.DragStart | src/components/games/SpaceAdventureGame.tsx:151-181 | Mouse down / touch start, as DragStartStep |
| SpaceSlider.Game.DragMove | src/components/games/SpaceAdventureGame.tsx:156-199 | Mouse / touch move with the 50-pixel threshold, as DragMoveStep |
| SpaceSlider.Game.DragEnd | src/components/games/SpaceAdventureGame.tsx:174-203 | Mouse up / leave / touch end, as DragEndStep |
| FeelingsQuest.StartStep | src/components/games/FeelingsQuestGame.tsx:306 | Defines the start button |
| FeelingsQuest.ChooseStep | src/components/games/FeelingsQuestGame.tsx:210-213 | Defines a response click behind the `!feedback` guard of lines 426-428; ChooseFacts states its effect |
| FeelingsQuest.AdvanceStep | src/components/games/FeelingsQuestGame.tsx:214-221 | Defines the three-second timeout; OneScenario states its effect |
| FeelingsQuest.RoundThird | src/components/games/FeelingsQuestGame.tsx:224-229 | Defines the integer form of `Math.round(total / 15 * 5)`; RoundThirdIsNearest states it is the nearest integer to total / 3 |
| FeelingsQuest.QuestReward | src/components/games/FeelingsQuestGame.tsx:224-232 | Defines the reward of handleComplete; QuestRewardFacts and QuestRewardMonotone state its range, badge and order |
| FeelingsQuest.ResultsMessage | src/components/games/FeelingsQuestGame.tsx:337-341 | Defines the three result tiers; QuestRewardFacts states when each is shown |
| FeelingsQuest.PlayAgainAsWritten | src/components/games/FeelingsQuestGame.tsx:353-359 | Defines Play Again as written, with `feedback` kept; ReplayStuckAsWritten states the stuck replay |
| FeelingsQuest.PlayAgainStep | src/components/games/FeelingsQuestGame.tsx:353-359 | Defines Play Again corrected to clear `feedback`; StepsKeepInv and ReplayAcceptsChoice state it returns to the initial state |
| FeelingsQuest.ScenarioTable | src/components/games/FeelingsQuestGame.tsx:23-189 | Five scenarios, 15 = 5 · 3 maximum points; each scenario offers three responses worth 1, 2 and 3 in some order, and BestChoice names the 3-point one |
| FeelingsQuest.RoundThirdIsNearest | src/components/games/FeelingsQuestGame.tsx:224-229 | The integer star formula is the nearest integer to total / 3 |
| FeelingsQuest.QuestRewardFacts | src/components/games/FeelingsQuestGame.tsx:224-232 | For totals up to 15: stars in [3, 5]; 🗺️ badge iff total ≥ 12; "Outstanding" iff the badge; "Great job" iff 9 ≤ total < 12; 15 points give (5, 🗺️) |
| FeelingsQuest.QuestRewardMonotone | src/components/games/FeelingsQuestGame.tsx:224-232 | More points never give fewer stars or lose the badge |
| FeelingsQuest.InitialInv | src/components/games/FeelingsQuestGame.tsx:202-208 | The initial state satisfies the invariant |
| FeelingsQuest.StepsKeepInv | src/components/games/FeelingsQuestGame.tsx:210-222 | Start, a choice, the deferred advance and (corrected) Play Again keep the invariant: index < 5, results only at the last scenario, a pending advance always for the current scenario, points between 1 and 3 per answered scenario |
| FeelingsQuest.ChooseFacts | src/components/games/FeelingsQuestGame.tsx:210-222 | A click is taken exactly when no feedback response is held; it then adds exactly that response's points and schedules the advance for this scenario |
| FeelingsQuest.ResultsFacts | src/components/games/FeelingsQuestGame.tsx:214-235 | When the results are shown, the index is the last scenario and the total lies in [5, 15] |
| FeelingsQuest.OneScenario | src/components/games/FeelingsQuestGame.tsx:210-222 | A choice and its advance add the response's points and show the next scenario, or the results after the last |
| FeelingsQuest.PlayFromFacts | src/components/games/FeelingsQuestGame.tsx:210-222 | Answering the remaining scenarios ends on the results with the sum of the chosen responses' points |
| FeelingsQuest.QuestTotal | src/components/games/FeelingsQuestGame.tsx:210-222 | A whole quest ends on the results with total = sum of the chosen points |
| FeelingsQuest.BestQuest | src/components/games/FeelingsQuestGame.tsx:23-189 | Always taking the 3-point response gives 15 points and (5, 🗺️) |
| FeelingsQuest.ReplayStuckAsWritten | src/components/games/FeelingsQuestGame.tsx:353-359 | After a quest, Play Again as written and Start keep the old response as feedback, so every click on the first scenario is ignored |
| FeelingsQuest.ReplayAcceptsChoice | src/components/games/FeelingsQuestGame.tsx:353-359 | With the feedback cleared, the replay is exactly a fresh start and takes the first click |
| FeelingsQuest.Game.constructor | src/components/games/FeelingsQuestGame.tsx:202-208 | The component's initial fields |
| FeelingsQuest.Game.Start | src/components/games/FeelingsQuestGame.tsx:306 | The start button, as StartStep |
| FeelingsQuest.Game.Choose | src/components/games/FeelingsQuestGame.tsx:210-213 | A click on a response, as ChooseStep |
| FeelingsQuest.Game.AdvanceAfterDelay | src/components/games/FeelingsQuestGame.tsx:214-221 | The three-second timeout, as AdvanceStep |
| FeelingsQuest.Game.Finish | src/components/games/FeelingsQuestGame.tsx:224-232 | "Finish & Collect Stars" returns QuestReward(total): stars in [3, 5], badge iff total ≥ 12 |
| FeelingsQuest.Game.PlayAgain | src/components/games/FeelingsQuestGame.tsx:353-359 | Play Again, corrected to clear the feedback, returns to the initial state |
| MoodMirror.FindEmotion | src/components/games/MoodMirrorGame.tsx:142-144 | Defines `emotions.find` by id; FindEmotionSpec states what it returns |
| MoodMirror.StartStep | src/components/games/MoodMirrorGame.tsx:228 | Defines the start button |
| MoodMirror.PickPoints | src/components/games/MoodMirrorGame.tsx:118-124 | Defines 2 points for the expected emotion and 1 for any other |
| MoodMirror.SelectStep | src/components/games/MoodMirrorGame.tsx:114-127 | Defines handleEmotionSelect; SelectFacts states its effect |
| MoodMirror.NextStep | src/components/games/MoodMirrorGame.tsx:129-139 | Defines handleNext, reporting the reward after the last situation; FinishFacts states that reward |
| MoodMirror.FindEmotionSpec | src/components/games/MoodMirrorGame.tsx:142-144 | The lookup finds a card exactly when one has the id, and returns the first such card |
| MoodMirror.FindDistinct | src/components/games/MoodMirrorGame.tsx:142-144 | When card ids are distinct, looking up a card's id returns that card |
| MoodMirror.ScenarioTable | src/components/games/MoodMirrorGame.tsx:53-90 | Six situations expecting the six emotion ids in card order; ids distinct; every expected emotion is found by the lookup |
| MoodMirror.StepsKeepInv | src/components/games/MoodMirrorGame.tsx:114-139 | Start, a pick and a non-final Next keep the invariant: feedback, selection and explanation appear together; score between 1 and 2 per answered situation |
| MoodMirror.SelectFacts | src/components/games/MoodMirrorGame.tsx:114-127 | A pick hides the cards, scores +2 and "correct" exactly for the expected emotion and +1 otherwise |
| MoodMirror.FinishFacts | src/components/games/MoodMirrorGame.tsx:129-133 | Only the last situation's button reports a reward; the score is then in [6, 12], stars = score and the 🪞 badge is always given |
| MoodMirror.PicksScoreCounts | src/components/games/MoodMirrorGame.tsx:118-124 | The points of a run of picks are one per pick plus one per right pick |
| MoodMirror.PlayFromFacts | src/components/games/MoodMirrorGame.tsx:114-139 | Picking through the remaining situations ends on the last with the score of the picks |
| MoodMirror.GameReward | src/components/games/MoodMirrorGame.tsx:114-139 | A whole game reports 6 + (number of right picks) stars and 🪞 |
| MoodMirror.Game.constructor | src/components/games/MoodMirrorGame.tsx:103-112 | The component's initial fields |
| MoodMirror.Game.Start | src/components/games/MoodMirrorGame.tsx:228 | The start button, as StartStep |
| MoodMirror.Game.Select | src/components/games/MoodMirrorGame.tsx:114-127 | A click on a card, as SelectStep |
| MoodMirror.Game.Next | src/components/games/MoodMirrorGame.tsx:129-139 | The Next/Finish button, as NextStep |
| GameHub.GamesFor | src/components/MiniGameHub.tsx:16-163 | Defines `allGames[worldId] || []`; ThresholdsAgree and HubCounts state its thresholds |
| GameHub.IsLocked | src/components/MiniGameHub.tsx:400 | Defines the locked test `totalStars < starsNeeded` |
| GameHub.Unlocked | src/components/MiniGameHub.tsx:488-494 | Defines the unlocked filter; UnlockedSpec states what it keeps |
| GameHub.UnlockedCount | src/components/MiniGameHub.tsx:488-494 | Defines the "Games Unlocked" counter; UnlockedCountMonotone and UnlockedCountExtremes state its behaviour |
| GameHub.ThresholdsAgree | src/components/MiniGameHub.tsx:16-163 | In every world Breathing Dragon and Mood Mirror need 0 stars, Feelings Quest 5, Space Adventure 10; no world lists a game twice; an unknown world has no games |
| GameHub.Shortfall | src/components/MiniGameHub.tsx:453-460 | The "earn N more" amount of a locked game is ≥ 1 and is exactly what unlocks it |
| GameHub.SelectGame | src/components/MiniGameHub.tsx:400-469 | Defines the click guard of the hub: a game id exactly for an unlocked game; HubSelectOpensUnlocked states its effect on the session |
| GameHub.UnlockedSpec | src/components/MiniGameHub.tsx:488-494 | The unlocked filter keeps exactly the games whose threshold is met, and counts no more than there are games |
| GameHub.UnlockedCountMonotone | src/components/MiniGameHub.tsx:488-494 | More stars never unlock fewer games |
| GameHub.UnlockedCountExtremes | src/components/MiniGameHub.tsx:488-494 | Stars at least every threshold unlock all; stars below every threshold unlock none |
| GameHub.HubCounts | src/components/MiniGameHub.tsx:16-163 | The initial 45 stars unlock every game of every world; with 0 stars exactly Breathing Dragon and Mood Mirror are open |
| Progression.MergeBadge | src/components/ChildInterface.tsx:69-71 | Defines the badge merge of handleGameComplete; MergeBadgeFacts states its properties |
| Progression.ProfileSelectStep | src/components/ChildInterface.tsx:46-49 | Defines handleProfileSelect |
| Progression.WorldSelectStep | src/components/ChildInterface.tsx:51-56 | Defines handleWorldSelect; WorldRoundTrip states its effect |
| Progression.CharacterSelectStep | src/components/ChildInterface.tsx:58-61 | Defines handleCharacterSelect |
| Progression.HubSelectStep | src/components/ChildInterface.tsx:63-65 | Defines the locked guard of the hub followed by handleGameSelect; HubSelectOpensUnlocked states its effect |
| Progression.GameCompleteStep | src/components/ChildInterface.tsx:67-73 | Defines handleGameComplete; GameCompleteFacts and RepeatedBadge state its effect |
| Progression.BackToWorldsStep | src/components/ChildInterface.tsx:75-79 | Defines handleBackToWorlds; WorldRoundTrip states its effect |
| Progression.BackToHubStep | src/components/ChildInterface.tsx:81-83 | Defines handleBackToHub |
| Progression.ViewAchievementsStep | src/components/ChildInterface.tsx:96 | Defines the achievements link of the worlds screen |
| Progression.AchievementsBackStep | src/components/ChildInterface.tsx:107 | Defines the back button of the achievements screen |
| Progression.MergeBadgeFacts | src/components/ChildInterface.tsx:69-71 | Merging keeps the old list as a prefix, adds at most one badge (a present, non-empty one not yet listed), keeps the list free of duplicates, and is idempotent |
| Progression.InitialInv | src/components/ChildInterface.tsx:29-34 | The session starts on the profile screen with 45 stars and the 4 seed badges |
| Progression.StepsKeepInv | src/components/ChildInterface.tsx:46-107 | Every reachable handler keeps the invariant: badges duplicate-free and containing the seeds; a game only once unlocked in a chosen world; character = world. A completion keeps it from any screen |
| Progression.GameCompleteFacts | src/components/ChildInterface.tsx:67-83 | A completion adds exactly the earned stars, never removes a badge, leaves a known badge unchanged, lists a new one, and returns to the hub, as a game's Back does |
| Progression.OnlyCompletionWritesLedger | src/components/ChildInterface.tsx:46-83 | Every handler other than a completion leaves stars and badges unchanged |
| Progression.WorldRoundTrip | src/components/ChildInterface.tsx:51-79 | Choosing a world sets world and character to it and opens the hub; going back clears both |
| Progression.HubSelectOpensUnlocked | src/components/MiniGameHub.tsx:400-412 | From the hub a game opens iff the stars reach its threshold; a locked click changes nothing |
| Progression.StaleRewardOpensHubWithoutWorld | src/components/ChildInterface.tsx:67-73 | After a game's Back and the hub's Back, the game's pending completion adds its stars and opens the hub with no world chosen, where no game can be selected |
| Progression.CompleteWhilePlaying | src/components/ChildInterface.tsx:67-73 | Defines the completion honoured only while its game is shown; CompleteWhilePlayingKeepsWorld states its properties |
| Progression.CompleteWhilePlayingKeepsWorld | src/components/ChildInterface.tsx:46-83 | With completions honoured only in a game, every handler keeps a world chosen while the hub is shown, and the stale completion after leaving a game is dropped |
| Progression.RepeatedBadge | src/components/ChildInterface.tsx:67-73 | Earning the same badge twice lists it once while both completions' stars add up |
| Progression.Session.constructor | src/components/ChildInterface.tsx:29-34 | The session's initial fields |
| Progression.Session.SelectProfile | src/components/ChildInterface.tsx:46-49 | handleProfileSelect, as ProfileSelectStep |
| Progression.Session.SelectWorld | src/components/ChildInterface.tsx:51-56 | handleWorldSelect, as WorldSelectStep |
| Progression.Session.SelectGame | src/components/MiniGameHub.tsx:410-412 | A hub click followed by handleGameSelect, as HubSelectStep |
| Progression.Session.GameComplete | src/components/ChildInterface.tsx:67-73 | handleGameComplete, as GameCompleteStep, from any screen (a reward timeout can fire after its game was left), keeping the invariant |
| Progression.Session.BackToWorlds | src/components/ChildInterface.tsx:75-79 | handleBackToWorlds, as BackToWorldsStep |
| Progression.Session.BackToHub | src/components/ChildInterface.tsx:81-83 | handleBackToHub, as BackToHubStep |
| Progression.Session.ViewAchievements | src/components/ChildInterface.tsx:96 | The worlds screen's achievements link |
| Progression.Session.AchievementsBack | src/components/ChildInterface.tsx:107 | The achievements screen's back button |
| Bookmarks.Toggled | src/components/ConversationPrompts.tsx:21-31 | Defines the set toggleBookmark stores; ToggleFacts and ToggleCommutes state its properties |
| Bookmarks.BookmarkList.IsBookmarked | src/components/ConversationPrompts.tsx:72 | Defines `bookmarked.has(prompt.id)`, which fills the bookmark icon |
| Bookmarks.BookmarkList.SummaryLine | src/components/ConversationPrompts.tsx:91-95 | Defines the summary line for the stored set; SummaryFacts states its text |
| Bookmarks.NatToString | src/components/ConversationPrompts.tsx:93 | Defines the decimal count in the summary; NatToStringRoundTrip states it reads back |
| Bookmarks.Summary | src/components/ConversationPrompts.tsx:91-95 | Defines the summary line for a count; SummaryFacts states its text |
| Bookmarks.CategoryColor | src/components/ConversationPrompts.tsx:33-42 | Defines getCategoryColor; CategoryColorFacts states which categories share a colour |
| Bookmarks.ToggleFacts | src/components/ConversationPrompts.tsx:21-31 | A toggle flips the id's membership, leaves every other id alone, changes the size by exactly one, and a second toggle restores the set |
| Bookmarks.ToggleCommutes | src/components/ConversationPrompts.tsx:21-31 | Toggles of two ids commute |
| Bookmarks.BookmarkList.constructor | src/components/ConversationPrompts.tsx:19 | Nothing is bookmarked at first |
| Bookmarks.BookmarkList.Toggle | src/components/ConversationPrompts.tsx:21-31 | toggleBookmark: the stored set becomes the toggled copy |
| Bookmarks.NatToStringRoundTrip | src/components/ConversationPrompts.tsx:93 | The decimal count in the summary reads back as the count |
| Bookmarks.PromptNoun | src/components/ConversationPrompts.tsx:93 | "prompt" is singular exactly for one |
| Bookmarks.SummaryFacts | src/components/ConversationPrompts.tsx:91-95 | The summary is shown iff the count is positive, starts with the count in decimal, then " prompt(s) bookmarked for later" |
| Bookmarks.CategoryColorFacts | src/components/ConversationPrompts.tsx:33-42 | Joy, Sadness, Anger and Fear have distinct colours and every other category, General included, gets the General colour |
| Chatbot.ToLower | src/components/ParentChatbot.tsx:64 | Defines ASCII `toLowerCase`; ToLowerIdempotent and CaseInsensitive state its properties |
| Chatbot.IsBlank | src/components/ParentChatbot.tsx:40 | Defines `!inputValue.trim()` for ASCII white space; SendFacts states its role |
| Chatbot.Contains | src/components/ParentChatbot.tsx:66-76 | Defines `includes`; ContainsSpec states what it means |
| Chatbot.Classify | src/components/ParentChatbot.tsx:63-79 | Defines the topic the if-chain of generateBotResponse selects; ClassifyByPriority states its priority order |
| Chatbot.Reply | src/components/ParentChatbot.tsx:66-78 | Defines the fixed reply of each topic |
| Chatbot.Respond | src/components/ParentChatbot.tsx:63-79 | Defines generateBotResponse; CaseInsensitive and LowerCasedInputSameReply state its properties |
| Chatbot.SetInputStep | src/components/ParentChatbot.tsx:173 | Defines the onChange of the input |
| Chatbot.SendStep | src/components/ParentChatbot.tsx:39-50 | Defines handleSend with its reply queued; SendFacts states its effect |
| Chatbot.DeliverStep | src/components/ParentChatbot.tsx:52-60 | Defines the reply timeout; LogOnlyGrows and QuestionAndAnswer state its effect |
| Chatbot.KeyPressStep | src/components/ParentChatbot.tsx:81-86 | Defines handleKeyPress |
| Chatbot.ToLowerIdempotent | src/components/ParentChatbot.tsx:64 | Lower-casing twice is lower-casing once |
| Chatbot.ContainsSpec | src/components/ParentChatbot.tsx:66-76 | `includes` holds iff the keyword occurs at some position |
| Chatbot.ClassifyByPriority | src/components/ParentChatbot.tsx:63-79 | A topic is chosen iff the input mentions one of its keywords and none of a higher-ranked topic (emotion/feeling, progress/improvement, help/advice, activity/game, concern/worried); the general reply iff none |
| Chatbot.CaseInsensitive | src/components/ParentChatbot.tsx:64 | Inputs equal up to ASCII case get the same topic and reply |
| Chatbot.LowerCasedInputSameReply | src/components/ParentChatbot.tsx:64 | Lower-casing the input first does not change the reply |
| Chatbot.KeywordSelects | src/components/ParentChatbot.tsx:66-78 | An input containing a keyword gets that keyword's topic or a higher-ranked one |
| Chatbot.InitialInv | src/components/ParentChatbot.tsx:20-28 | The chat starts with the single greeting and an empty input |
| Chatbot.StepsKeepInv | src/components/ParentChatbot.tsx:39-86 | Typing, sending, key presses and reply delivery keep the invariant: greeting first, bot messages + waiting replies = 1 + user messages, no waiting input blank |
| Chatbot.SendFacts | src/components/ParentChatbot.tsx:39-50 | A blank-after-trim input changes nothing; otherwise exactly the parent's message is appended, the input cleared and one reply scheduled |
| Chatbot.ReplyUsesSentInput | src/components/ParentChatbot.tsx:52-57 | The scheduled reply is for the input as sent, whatever is typed afterwards |
| Chatbot.QuestionAndAnswer | src/components/ParentChatbot.tsx:39-61 | On a quiet chat, typing, sending and the delay append exactly [the question, its reply] |
| Chatbot.LogOnlyGrows | src/components/ParentChatbot.tsx:49-59 | No step removes or rewrites a message; a send appends at most one, a delivery exactly one |
| Chatbot.Chat.constructor | src/components/ParentChatbot.tsx:20-28 | The chat's initial fields |
| Chatbot.Chat.SetInput | src/components/ParentChatbot.tsx:173 | Typing, as SetInputStep |
| Chatbot.Chat.Send | src/components/ParentChatbot.tsx:39-50 | handleSend, as SendStep |
| Chatbot.Chat.DeliverReply | src/components/ParentChatbot.tsx:52-60 | The reply timeout, as DeliverStep |
| Chatbot.Chat.KeyPress | src/components/ParentChatbot.tsx:81-86 | Enter without Shift sends |

## Left out

- Rendering, styling, animation, the decorative random placement, the instruction/colour/emoji switches and the progress-bar percentages are presentation only.
- Wall-clock time is not modelled. Each interval or timeout callback is a method the environment calls in order.
- The 1 s delay before Breathing Dragon reports its reward is not modelled. The reward is reported on the completing tick.
- React semantics are not modelled: effect re-subscription, double-invoked updaters and batching. The model follows the plain sequential reading, so a spawn happens in the same step as the state change that triggers it.
- After a reward is reported the host leaves the game. The model does not follow a game past that point (for example Space Slider's spawn after its final timeout), except in `BreathingDragon.RestartAfterCompletion`.
- The random shape colour is a parameter of `Start`, `Spawn` and `FeedbackDone`.
- Drag coordinates are integers; the model does not include the element lookup `trackRef`. The track exists only while playing, which the drag-move guard encodes.
- `SpaceSlider.RoundStep` and `Play` move the player straight to a right or wrong lane. Individual key and drag events are covered separately by `InputOnlySnapsSideways`.
- Response texts, emojis, explanations, situation descriptions and feedback sentences are not modelled, since nothing depends on them. Only the responses' emotions and points, and the expected emotion ids, are.
- The exit confirmation dialog, the profile and world pickers' own screens, and the hub's greeting timer are not modelled.
- The hub reached with no world chosen reads `worldInfo[null].bgColor` (MiniGameHub.tsx:262, 276), which throws. The model does not capture that failure; from that state it only lets the session go back to the worlds or take further completions.
- `handleCharacterSelect` is modelled as `CharacterSelectStep` but has no method of `Session`: no screen calls it, because nothing renders the character-select view.
- Chatbot message ids and timestamps come from the clock and are not modelled.
- Lower-casing and trimming cover ASCII only (letters A–Z; space, tab, line feed, carriage return, vertical tab, form feed). The Unicode cases of `toLowerCase` and `trim` are not modelled.
- Scrolling the chat to the bottom is not modelled.
- Pending chatbot replies are delivered oldest first. Each fires one second after its own send, so this is the order the timeouts fire in.
- Category lookups use an object literal, so a category such as `toString` would hit a built-in property. The model treats every category other than the four emotions as General.
- Badges are the emoji strings the games award (🐉, 🚀, 🗺️, 🪞); their display names are not modelled.
- After the last scenario the Feelings Quest index stays at 4 and `showResults` is set (FeelingsQuestGame.tsx:214-221); the model has no index past the last scenario.
- Progression.GameCompleteFacts: the clause that the star total never decreases assumes non-negative stars, which every game reports (at least two). A completion with any number of stars keeps the invariant.
- SpaceSlider.Game.FeedbackDone: the class implements the timeout corrected to use the final score (FeedbackDoneStep). The timeout as written is FeedbackDoneAsWritten; EndOfGameAsWritten, TwelfthJudgment and AllCorrectGameAsWritten state what it reports. Both agree on the new state and on whether the game ends (AsWrittenDiffersOnlyAtTheEnd).
- FeelingsQuest.Game.PlayAgain: the class implements the reset corrected to clear `feedback` (PlayAgainStep). The reset as written is PlayAgainAsWritten, and ReplayStuckAsWritten shows that its replay ignores every click. Its state lies outside the invariant the class keeps.

## Findings

| source | as written | input that shows it | evidently intended | confidence | as-written member | corrected member |
|---|---|---|---|---|---|---|
| src/components/games/SpaceAdventureGame.tsx:130-144 | The feedback timeout closes over `score` from before the judgment's `setScore(score + 1)`. The final reward therefore ignores the last point, for stars and for the `score >= 10` badge test. | Twelve right answers: the timeout reads score 11 and reports max(3, floor(11/12·5)) = 4 stars. | Reward the final score: 12 right answers give 5 stars. | not executed | SpaceSlider.AllCorrectGameAsWritten | SpaceSlider.AllCorrectGame |
| src/components/games/FeelingsQuestGame.tsx:353-359 | "Play Again" resets playing, index, points and results but not `feedback`. | Finish a quest, press Play Again, then Start: `feedback` still holds the last response, so all three responses are dimmed under the old feedback card and the `!feedback` guard (lines 426-428) ignores every click. | Play Again also clears `feedback`, so the replay behaves like a fresh quest. | not executed | FeelingsQuest.ReplayStuckAsWritten | FeelingsQuest.ReplayAcceptsChoice |
| src/components/ChildInterface.tsx:67-73 | `handleGameComplete` accepts a completion on any screen, and the Breathing Dragon and Space Slider reward timeouts (BreathingDragonGame.tsx:46-48, SpaceAdventureGame.tsx:130-148) are not cleared when their game is left. | Complete the dragon's last rest (or lose Space Slider's last life), then press the game's Back and the hub's Back before the timeout fires: the stars are added and the hub opens with no world chosen, whose render reads `worldInfo[null].bgColor`. | A reward counts only while its game is shown (each game clears its timeout when it is left), so the hub always has a world. | not executed | Progression.StaleRewardOpensHubWithoutWorld | Progression.CompleteWhilePlayingKeepsWorld |

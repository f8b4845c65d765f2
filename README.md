# Neverball play-session progress, modelled in Dafny

This project models the progress tracker of Neverball (`ball/progress.c`): the
session state that carries the life count ("balls"), score and time from level
to level, the goal countdown of the level being played, and the rules that
settle a level attempt. Those rules cover reward balls, the walk along the set's
level chain that picks and unlocks the next level, Challenge-mode completion,
and when high scores are flushed to storage. It also covers starting a level,
retrying it with progress rolled back, and the queries the menus ask ("is there
a next level", "may I retry", "is the run lost").

Layout:

- `levels.dfy`, module `Levels`: the set's chain of levels as a `seq<Level>`.
  The level at index i has the level at index i + 1 as its `next`, and a null
  `next` is the end of the chain. The module also holds the three walks that
  settling a level performs (`Seek`, `Successor`), unlocking a run of levels
  (`OpenRange`) and counting locked ones (`Unopened`).
- `progress.dfy`, module `Progress`: the rules as functions of plain values
  (`RewardBall`, `RewardsIn`, `StepGoal`, `GoalEnabled`, `SettleGoal`, ...) and
  lemmas about them. The loops of `progress_stat` are methods proved against those
  functions. Class `Session` has one field per module-level variable of
  `progress.c`, plus the level chain whose flags the tracker updates. Each entry
  point is a method with a field-by-field `modifies` frame.

The collaborators are inputs:

- `curr_coins()`, `curr_clock()`, `config_cheat()` and
  `config_get_d(CONFIG_LOCK_GOALS)` are method parameters.
- The result of `init_level` is a boolean parameter.
- What `level_score_update`, `set_score_update` and `demo_replay_init` report
  is passed in as parameters.
- Calls to `set_store_hs` are counted in the ghost field `flushes`.
- Calls to `game_set_goal` are counted in the ghost field `goalSignals`.

Modelling notes:

- `mode` is an `int` in the source. Every test compares it with `MODE_CHALLENGE`,
  so the model uses a two-valued `Mode`.
- The status `GAME_NONE` is called `Unset`.
- `level_opened` is the field `unlocked`. (`opened` is a Dafny keyword.)
- The walk loops of `progress_stat` and the reward loop are in separate methods:
  `WalkTo`, `UnlockBonusChain`, `AddRewardBalls` and `SettleChain`. The goal
  branch is `SettleGoalOutcome` and `AdvanceChain`; the fall/time-out branch is
  `SettleMiss`. `Stat` calls them in the source's order.
- `progress_done` is the function `IsDone`. Its meaning is stated by the
  postconditions of `Init` and `Stat`.
- C's `%` truncates and Dafny's is Euclidean. They agree in `s % 100 == 0`
  whenever `s > 0`, which is the only case `progress_reward_ball` reaches.

## Model

| member | source | states |
|---|---|---|
| Levels.Seek | ball/progress.c:199-238 | a walk along the successor chain stops at the first level where its loop condition fails, or at the end of the chain; every level it passes satisfies the condition |
| Levels.Successor | ball/progress.c:235-238 | after a fall or time-out, `next` is the first unlocked successor of the level, or null when every successor is locked |
| Levels.Unopened | ball/progress.c:203-208 | the number of locked levels in a run of the chain is at most the run's length |
| Levels.UnopenedZero | ball/progress.c:199-209 | a run has no locked level exactly when the count of locked levels in it is zero |
| Levels.UnopenedAgree | ball/progress.c:199-209 | the count of locked levels depends only on the unlock flags of the levels in the run |
| Levels.OpenRangeChanges | ball/progress.c:199-209 | unlocking a run of levels changes the chain exactly when the run held a locked level |
| Levels.OpenRangeLeavesNoneLocked | ball/progress.c:199-209 | after a run is unlocked, none of its levels is locked |
| Progress.RewardBall | ball/progress.c:376-379 | a score earns a ball exactly when it is a positive multiple of 100, so the first one is at 100 |
| Progress.RewardBallCrossing | ball/progress.c:376-379 | going from score x-1 to x earns a ball exactly when x is a positive multiple of 100, that is, when the number of positive multiples of 100 up to the score goes up by one |
| Progress.RewardsInClosedForm | ball/progress.c:177-179 | the balls granted for a goal are the positive multiples of 100 in (score, score+coins] |
| Progress.AddRewardBalls | ball/progress.c:177-179 | the reward loop adds one ball per rewarded score value in score+1..score+coins, which is floor(max(score+coins,0)/100) - floor(max(score,0)/100) |
| Progress.StepGoalEffect | ball/progress.c:146-160 | a step never makes the goal negative and leaves a goal <= 0 unchanged; otherwise the goal becomes max(0, goal_i - coins); the exit is signalled exactly on the step that takes a positive goal to 0 |
| Progress.StepGoalIdempotent | ball/progress.c:146-160 | repeating a step with the same coin count changes nothing and does not signal the goal again |
| Progress.StepGoalTracksCoins | ball/progress.c:148-158 | while the coin count grows, the goal never grows and stays equal to the uncollected part of the initial goal |
| Progress.GoalEnabledPolicy | ball/progress.c:131-135 | a level with goal 0 always has its goal enabled; any other level has it enabled exactly outside Challenge mode, when already completed and with goal locking off |
| Progress.SettleGoal | ball/progress.c:189-227 | a goal keeps the chain's length, and the next level, if any, is a later level of the chain |
| Progress.ChallengeGoalSettlement | ball/progress.c:197-227 | in Challenge mode, every bonus level in a row after the finished one is unlocked; bonus grows by the number of them that were locked; next is the first non-bonus successor and is unlocked, or null when only bonus levels follow |
| Progress.NormalGoalSettlement | ball/progress.c:211-227 | in Normal mode, the walk passes only locked bonus levels and unlocks none of them; next is the first successor that is not a bonus level or is already unlocked, and is unlocked; bonus is unchanged |
| Progress.GoalSettlementFrame | ball/progress.c:189-227 | a goal marks the finished level completed, unlocks only levels from it up to next, never locks a level, and changes nothing else |
| Progress.GoalStoresExactlyOnChange | ball/progress.c:189-227 | apart from the score update's report, a goal asks for a flush exactly when the level chain changed or next is non-null |
| Progress.ChallengeGoalRepeatGainsNothing | ball/progress.c:197-227 | a second Challenge goal on the same level, on the chain the first one left, unlocks nothing new, adds nothing to bonus, picks the same next level and asks for a flush only because a next level exists |
| Progress.ChallengeThroughThreeBonusLevels | ball/progress.c:197-227 | a Challenge goal before three locked bonus levels and a normal level unlocks all four, adds 3 to bonus and makes the normal level next |
| Progress.WalkTo | ball/progress.c:213-216 | the plain walk loop stops at the first level where the walk stops, having passed only levels where it does not |
| Progress.UnlockBonusChain | ball/progress.c:199-209 | the Challenge walk loop unlocks exactly the bonus levels it passes, counts those that were locked, and stops where the bonus run ends |
| Progress.SettleChain | ball/progress.c:189-225 | completing the level, walking and unlocking next yield exactly the chain, next level, bonus count and dirty flag of SettleGoal |
| Progress.Session.constructor | ball/progress.c:39-73 | a fresh session holds the static initial values: Normal mode, no level, zero progress, every rank at 3 |
| Progress.Session.Init | ball/progress.c:77-93 | keeps the level indices valid; balls = 2, score = times = 0, prev = curr, both set ranks 3, done, bonus and replay cleared, mode set; the run is not lost and has no set record |
| Progress.Session.Play | ball/progress.c:119-144 | a null level, or a locked one with cheats off, returns false and changes nothing; otherwise the level is begun (next null, status unset, coins and timer 0, goal = goal_i = level goal, prev = curr, level ranks 3), goal_e is kept once when a restart asked for it and is set by the policy otherwise, and the result is the level initialisation's |
| Progress.Session.Step | ball/progress.c:146-160 | keeps the level indices valid; the goal follows StepGoal, and the simulation is told the goal is met exactly on the step that reaches it, outside replays |
| Progress.Session.Stat | ball/progress.c:162-250 | records the status, coins and timer. A goal grants the reward balls, adds coins to score and timer to times, takes the ranks (the goal rank only when the goal was met), and applies SettleGoal: done is set exactly in Challenge mode when next is null, and high scores are flushed once when the score update or the chain asks for it. A fall or time-out costs one ball, adds the timer, makes next the first unlocked successor and flushes nothing. Afterwards, the next level is offered exactly when one exists, except after a Challenge fall or time-out, when it never is. |
| Progress.Session.SettleGoalOutcome | ball/progress.c:175-229 | the goal branch: reward balls, score and time, the ranks reported by the score update, and the chain update of SettleGoal |
| Progress.Session.AdvanceChain | ball/progress.c:189-227 | the session's chain, next level and bonus count become those of SettleGoal, and done is set to "Challenge mode" exactly when there is no next level |
| Progress.Session.SettleMiss | ball/progress.c:231-243 | a fall or time-out loses one ball, adds the timer to times, keeps the score, and makes next the first unlocked successor |
| Progress.Session.Exit | ball/progress.c:257-263 | needs a finished session and keeps the level indices valid; takes the set ranks reported by the set score update and flushes exactly when it reported a change |
| Progress.Session.Replay | ball/progress.c:265-278 | keeps the level indices valid; a replay that fails to load changes nothing; one that loads sets goal, mode and progress from it, sets goal_i = goal and enters replay mode |
| Progress.Session.Next | ball/progress.c:307-311 | starts the level that was next, with the effects of Play |
| Progress.Session.Same | ball/progress.c:313-325 | after a goal, progress is rolled back to the snapshot taken when the level began; goal_e is unchanged; when the level may be played it is begun again and the reuse flag is cleared, otherwise the reuse flag stays set and the level state is kept |
| Progress.Session.NextAvail | ball/progress.c:280-290 | no next level is offered when next is null; otherwise it is offered after a goal in Challenge mode and when unlocked in Normal mode |
| Progress.Session.SameAvail | ball/progress.c:292-305 | before any outcome, a retry is offered exactly in Normal mode; after one, exactly when the run is not lost |
| Progress.Session.Dead | ball/progress.c:327-330 | the run is lost exactly in Challenge mode with fewer than zero balls |
| Progress.Session.IsDone | ball/progress.c:332-335 | the session is done when the done flag is set; Init clears it, and Stat sets it after a Challenge goal with no next level and never after a Normal-mode goal with no next level |
| Progress.Session.Last | ball/progress.c:337-340 | the last level of a set was just finished exactly in Normal mode after a goal with no next level; then no next level is offered |
| Progress.Session.LvlHigh | ball/progress.c:342-347 | the attempt made a level record exactly when one of the three level ranks is better than 3. Starting a level clears it (Started, used by Play, Next and Same); after a goal it holds exactly when the score update reported a time or coin rank better than 3, or a goal rank better than 3 on a level whose goal was met; a fall or time-out leaves it as it was (Stat) |
| Progress.Session.SetHigh | ball/progress.c:349-353 | the session made a set record exactly when one of the two set ranks is better than 3 |

## Left out

- The body of `init_level` (ball/progress.c:95-117) is not modelled. It starts
  the replay recording, initialises the game client and server, syncs them and
  fades the music. These are calls into I/O and simulation code, so the model
  takes only its boolean result, `initOk`.
- `progress_stop` and every `demo_play_*` call: recording replays is file I/O.
  `Stop` is an empty method, and the call at the end of `progress_stat` is not
  modelled.
- `demo_replay_init` file parsing: `Replay` receives what the file supplied, or
  None when it could not be read.
- The rank computation inside `level_score_update` and `set_score_update`: the
  model takes their reported ranks and change flag as inputs.
- `progress_rename` only forwards the player name to storage and then flushes;
  it touches no progress state.
- `mode_to_str` is a localised string lookup.
- The accessors `curr_level`, `curr_balls` and the others at
  ball/progress.c:383-396 only return fields; the fields are public here.
- The duration passed to `audio_music_fade_to` is a floating-point value sent to
  the audio system.
- Integer width: the source's `int` fields are unbounded integers here. 32-bit
  overflow of score or time is not modelled.
- Level goals and time limits are `nat`. The level loader is not part of this
  model.

# Sonic Colors: Ultimate auto-splitter, modelled in Dafny

This project models the decision core of the LiveSplit auto-splitter for
*Sonic Colors: Ultimate*, which is `src/lib.rs`. On every tick the splitter
does the following:

- It reads a handful of values from the game's memory. These are the
  six-byte code of the current stage, the in-game time, the goal-ring flag,
  the two Egg Shuttle counters, the run-start byte and the Tropical Resort
  rank.
- It pushes each value into a *watcher*. A watcher keeps the value from the
  previous tick and the value from this tick.
- It keeps two pieces of derived state: the game time banked from finished
  stages, and the detected category (Any% or Egg Shuttle).
- It drives the host timer from five decisions: start, split, reset,
  is-loading and game time.

The modules are:

- `Wrappers` (wrappers.dfy) holds the `Option` type used for every fallible
  read.
- `Levels` (levels.dfy) holds the 66 levels plus the `NoLevel` sentinel (the
  source's `Levels::None`) and the stage-code catalog with its proofs. The
  proofs show that the catalog is a bijection between levels and codes, and
  that every code outside it, and every failed read, decodes to `NoLevel`.
- `Watcher` (watcher.dfy) holds the previous/current pair and its update.
- `HostTimer` (timer.dfy) models the host timer. It has three phases and a
  log of the commands it received, and it is a class whose `Send` method
  updates both fields.
- `SplitterState` (state.dfy) holds the `Watchers` record, `GameMode` and the
  settings.
- `Update` (update.dfy) models `update_loop`. It reads the game chain by
  chain in `ReadSample` and then updates the watchers step by step in
  `UpdateLoop`. Both methods are proved equal to the declarative `SampleOf`
  and `Updated`, and the lemmas about those functions state what the update
  promises.
- `Decisions` (decisions.dfy) holds `start`, `split`, `reset`, `is_loading`
  and `game_time`, with lemmas stating each one's firing conditions.
- `Tick` (tick.dfy) models one pass of the main loop. `Tick` updates the
  watchers and then sends the timer the commands listed by
  `TickCommands`. The lemmas on `TickCommands` state the ordering guarantees.

Modelling decisions:

- **Watcher updates.** They come from the `asr` crate, which is not part of
  this model. They are modelled as that crate defines them: the first update
  stores the sample as both `previous` and `current`, and every later update
  moves `current` to `previous`. So a pair exists from the first tick on. Its
  two halves are equal on that tick, so no edge can be seen and nothing
  fires (`Tick.FirstTickQuiet`).
- **Memory reads.** Each one is an input. A pointer link is a `bool` that
  says whether it could be followed. A value read is an `Option`. No
  addresses or offsets are modelled.
- **In-game time.** The in-game time read is taken as the float already
  scaled and truncated to hundredths (`(x * 100.0) as i64`). The model
  multiplies it by 10 to get milliseconds, as the source does. All times are
  integer milliseconds.
- **Byte arithmetic.** The Egg Shuttle split computes
  `totalstages.current - 1` and `progressiveid.old + 1` on bytes. Both are
  modelled as wrapping modulo 256 (`Decisions.WrapU8`), which is how an
  unchecked build behaves. For example, a stage count of 0 is compared
  against an index of 255.
- **Split settings.** The 66 per-level toggles are one function
  `splitAfter: Level -> bool`. `SplitFlag` makes the sentinel's toggle
  always false, like the `_ => false` arm.
- **Timer phases.** A timer command changes the phase only in two cases.
  `Start` moves `NotRunning` to `Running`, and `Reset` always gives
  `NotRunning`. `Tick` reads the phase a second time after the
  reset-or-split step, as the source does. So a reset and a start can happen
  in the same tick (`Tick.EggShuttleRestartTick`).
- **Four behaviours of the code a reader might not expect.**
  - `game_time` reports nothing while the igt watcher has no pair.
  - The watcher pair exists from the first update on, with both halves
    equal.
  - Outside Egg Shuttle mode, every level other than Terminal Velocity
    Act 2 splits on a *falling* goal-ring flag.
  - An Egg Shuttle restart during a run resets and starts the timer in the
    same tick. The update of that tick has just banked the time the stage
    showed, and the next tick already sees a running timer, so the banked
    time is not cleared when the new run starts and the new run inherits it
    (`Tick.EggShuttleRestartKeepsBank`).

## Model

| member | source | states |
|---|---|---|
| Levels.StageCode | src/lib.rs:366-431 | no contract; the catalog table, one code per level, stated by DecodeStageCode, StageCodeDefined, StageCodeInjective and CodedNotSentinel |
| Levels.Decode | src/lib.rs:363-435 | no contract; the stage-code match, stated by DecodeStageCode, DecodeOnlyCatalog, DecodeIff and DecodeUnknown |
| Levels.DecodeStageCode | src/lib.rs:363-435 | every level other than the sentinel is decoded from its own catalogued code |
| Levels.StageCodeDefined | src/lib.rs:685-753 | every one of the 66 levels has a stage code |
| Levels.DecodeOnlyCatalog | src/lib.rs:363-435 | a read decodes to a level only if it is exactly that level's code; a failed read gives the sentinel |
| Levels.DecodeIff | src/lib.rs:363-435 | a read decodes to a given level if and only if it equals that level's code |
| Levels.StageCodeInjective | src/lib.rs:366-431 | no two levels share a stage code |
| Levels.CodedNotSentinel | src/lib.rs:752 | the sentinel has no stage code |
| Levels.DecodeUnknown | src/lib.rs:432-434 | any code that is no level's code decodes to the sentinel |
| Watcher.Record | src/lib.rs:479-489 | after an update the pair exists, `current` is the new sample, and `previous` is the former `current` (or the sample itself on a fresh watcher) |
| Watcher.FeedTracksLastTwo | src/lib.rs:479-489 | after any number of updates a watcher holds the last two samples |
| HostTimer.After | src/lib.rs:53-85 | a start from `NotRunning` starts the run, a reset ends it, and every other command keeps the phase |
| HostTimer.AfterAllQuiet | src/lib.rs:54-64 | commands that neither start nor reset keep the phase |
| HostTimer.Timer.Send | src/lib.rs:53-85 | a sent command is appended to the log and moves the phase |
| SplitterState.DefaultWatchers | src/lib.rs:94-105 | fresh watchers hold no pairs, no banked time and the `AnyPercent` mode |
| SplitterState.DefaultSettings | src/lib.rs:133-348 | every start, reset and split toggle starts out on |
| SplitterState.SplitFlag | src/lib.rs:551-619 | the split toggle of the level just left; the sentinel's is always off |
| Update.SampleOf | src/lib.rs:350-475 | no contract; the values one tick reads, stated by SampleDefaults, SampleValues, SampleChainsIndependent and SampleLevel, and computed by ReadSample |
| Update.Push | src/lib.rs:479-489 | no contract; every watcher receives its sample, stated by UpdatedPairs and FirstUpdateSettled |
| Update.IdleReset | src/lib.rs:491-503 | no contract; the idle clear and mode selection, stated by IdleGating and Banking |
| Update.Bank | src/lib.rs:505-509 | no contract; the banking step, stated by Banking and AccumulatorNeverDecreases |
| Update.Updated | src/lib.rs:479-509 | no contract; one whole update, stated by UpdatedPairs, IdleGating, Banking and AccumulatorNeverDecreases, and computed by UpdateLoop |
| Update.GoalRingBitValue | src/lib.rs:443-446 | the goal ring is bit 5 of the flags byte, the bit worth 32 |
| Update.SampleDefaults | src/lib.rs:351-475 | without the first two links nothing is read; the level is catalogued or the sentinel; off a level the time and the goal ring are defaults; a broken Egg Shuttle or run-start chain leaves both of its values at zero; a failed igt, goal-flags, stage-index or rank read leaves that value at its default |
| Update.SampleValues | src/lib.rs:359-475 | when a chain holds, the sample is the decoded level, the in-game time in hundredths times ten and the goal-ring bit while a level is played, and the counters, run-start byte and rank as read |
| Update.SampleChainsIndependent | src/lib.rs:359-475 | the stage, Egg Shuttle and run-start chains are independent: reads that agree on one chain give the same values for that chain's fields |
| Update.SampleLevel | src/lib.rs:359-435 | a level is sampled exactly when the stage chain holds and its code was read |
| Update.ReadSample | src/lib.rs:350-475 | the chain-by-chain reads produce exactly the declarative sample |
| Update.UpdateLoop | src/lib.rs:350-510 | the step-by-step update produces exactly the declarative update |
| Update.UpdatedPairs | src/lib.rs:479-489 | after an update every watcher has a pair whose `current` is its sample and whose `previous` is the last `current`, or the sample itself for a watcher that had no pair |
| Update.FirstUpdateSettled | src/lib.rs:38 | the first update of fresh watchers leaves every pair with equal halves and nothing banked |
| Update.IdleGating | src/lib.rs:491-503 | with no run in progress the mode is Egg Shuttle if and only if 0 < stage count <= 45; during a run the mode never changes |
| Update.Banking | src/lib.rs:491-509 | the banked time is cleared when idle, then grows by exactly the previous in-game time when that was non-zero and the clock now reads zero |
| Update.AccumulatorNeverDecreases | src/lib.rs:491-509 | over any run of ticks during a run, running or paused at each tick, with non-negative in-game times, the banked time never decreases and the mode never changes |
| Update.PhaseOnlyIdleMatters | src/lib.rs:491-509 | during a run, the update is the same whether the timer is running or paused |
| Decisions.WrapU8 | src/lib.rs:637-640 | byte arithmetic wraps: -1 becomes 255 and 256 becomes 0 |
| Decisions.IsLoading | src/lib.rs:669-671 | the splitter always reports loading |
| Decisions.GameTime | src/lib.rs:673-675 | no game time without an igt pair, otherwise the current in-game time plus the banked time |
| Decisions.GameTimeAfterUpdate | src/lib.rs:673-675 | after any update a game time is always reported: the sampled time plus the banked time |
| Decisions.Start | src/lib.rs:512-544 | no contract; stated by StartNeedsPairs, StartEggShuttle, StartAnyPercent, StartNeedsExactRunStartStep, StartTogglesOff and SettledIsQuiet |
| Decisions.Split | src/lib.rs:546-647 | no contract; stated by SplitNeedsFlag, SplitEggShuttle, SplitEggShuttleNeedsCounters, SplitAnyPercent and SettledIsQuiet |
| Decisions.Reset | src/lib.rs:649-667 | no contract; stated by ResetEggShuttle, ResetAnyPercent and SettledIsQuiet |
| Decisions.StartNeedsPairs | src/lib.rs:513-524 | start never fires without the level, igt, run-start and rank pairs |
| Decisions.StartEggShuttle | src/lib.rs:527-533 | in Egg Shuttle mode start fires if and only if the toggle is on, the level is Tropical Resort Act 1, and it was entered from no level or its clock fell from a positive time to zero |
| Decisions.StartAnyPercent | src/lib.rs:534-542 | otherwise start fires if and only if the run-start byte steps 35 to 110 with rank -1, or Sonic Simulator 1-1 is entered from no level, each under its toggle |
| Decisions.StartNeedsExactRunStartStep | src/lib.rs:534-542 | in Any% mode, any other run-start transition (35 to 35, 100 to 110) starts nothing unless Sonic Simulator 1-1 was just entered |
| Decisions.StartTogglesOff | src/lib.rs:527-542 | with every start toggle off nothing starts |
| Decisions.SplitNeedsFlag | src/lib.rs:547-627 | no split without a level pair, for the sentinel, for a level whose toggle is off, or without a goal-ring pair |
| Decisions.SplitEggShuttle | src/lib.rs:629-640 | in Egg Shuttle mode the last stage (index one below the count, wrapping) splits on the goal ring being reached, and any other stage splits when the index steps up by one, wrapping |
| Decisions.SplitEggShuttleNeedsCounters | src/lib.rs:630-635 | in Egg Shuttle mode no split without both counter pairs |
| Decisions.SplitAnyPercent | src/lib.rs:641-646 | otherwise Terminal Velocity Act 2 splits on the goal ring being reached and every other level splits when the flag falls |
| Decisions.ResetEggShuttle | src/lib.rs:650-660 | in Egg Shuttle mode reset fires if and only if the toggle is on, the clock fell from non-zero to zero, and the goal ring had not been reached |
| Decisions.ResetAnyPercent | src/lib.rs:661-666 | otherwise reset fires if and only if the toggle is on and the run-start byte steps 110 to 35 |
| Decisions.SettledIsQuiet | src/lib.rs:512-667 | when no watched value changed, nothing starts, splits or resets |
| Decisions.EggShuttleRestart | src/lib.rs:527-660 | in Egg Shuttle mode a clock restart on Tropical Resort Act 1 before the goal ring satisfies both reset and start |
| Decisions.EggShuttleNegativeIgt | src/lib.rs:531-658 | because start asks for a positive time and reset for a non-zero one, any negative time dropping to zero on a level already being played resets without starting |
| Tick.TickCommands | src/lib.rs:53-85 | no contract; the commands of one tick in order, stated by RunCommandsShape, IdleTickCommands, RunningTickCommands, AtMostOneDecision, ResetPreemptsSplit, StartThenPause, StartOnlyWhenIdle and TickPhase, and sent by Tick |
| Tick.Tick | src/lib.rs:50-85 | one tick updates the watchers, then sends the timer exactly the commands of `TickCommands`, in order, and leaves the phase they lead to |
| Tick.RunPhase | src/lib.rs:54-72 | the run part of a tick sends exactly the run commands |
| Tick.StartPhase | src/lib.rs:74-84 | the start part, reading the phase again, sends exactly the start commands |
| Tick.ReportLoading | src/lib.rs:55-61 | the loading report sends a pause, a resume or nothing |
| Tick.RunCommandsShape | src/lib.rs:54-72 | during a run a tick pauses the game time, sets it when there is an igt pair, then resets, or else splits, and only a reset changes the phase |
| Tick.IdleTickCommands | src/lib.rs:74-84 | with no run in progress a tick sends nothing, or a start followed by two game-time pauses |
| Tick.RunningTickCommands | src/lib.rs:53-85 | the whole command list of a tick during a run, including a start right after a reset |
| Tick.AtMostOneDecision | src/lib.rs:67-71 | a tick sends at most one reset or split |
| Tick.ResetPreemptsSplit | src/lib.rs:67-71 | during a run a reset pre-empts the split |
| Tick.StartThenPause | src/lib.rs:75-76 | every start is immediately followed by a game-time pause |
| Tick.StartOnlyWhenIdle | src/lib.rs:74 | a start is sent only when start holds, and only from an idle timer or right after a reset |
| Tick.TickPhase | src/lib.rs:53-85 | the phase after a tick: running if started from idle or right after a reset, idle after a reset without a start, otherwise unchanged |
| Tick.FirstTickQuiet | src/lib.rs:38-85 | the first tick after attaching starts, splits and resets nothing |
| Tick.EggShuttleRestartTick | src/lib.rs:53-85 | an Egg Shuttle restart during a run resets and immediately starts the next run in the same tick |
| Tick.EggShuttleRestartKeepsBank | src/lib.rs:491-509 | after an Egg Shuttle restart during a run the banked time has grown by the stage's last time, the tick resets and starts, the timer runs, and the next tick keeps the banked time unchanged |

## Left out

- Attaching to the process, the retry loops, `until_closes` and the async tick (`next_tick`): host and async plumbing.
- `Addresses::init` (module lookup, image size, signature scan) and every address and offset: they are calls into process memory. Each read is an input instead (`Update.Reads`).
- The float conversion of the in-game time: the input is the time already scaled and truncated to hundredths of a second. The saturation of the float-to-integer cast is not modelled.
- Overflow of `i64` milliseconds or of `Duration` when banking: integers are unbounded here.
- `Decisions.Split`: a build with overflow checks would panic on the byte arithmetic at 0 and 255; the model only covers the wrapping behaviour.
- The settings GUI, its registration and `settings.update()`: the settings are an input of each tick.
- The timer phase `Ended` and the host's own rules for commands in other phases (a split that finishes the last segment, a start sent while running): a timer command changes the phase only as `HostTimer.After` states.
- `Levels.Decode` checks the fixed bytes "stg" and "0" first. Then it looks up the zone byte and the act byte in per-zone tables. This is the same function as the source's flat match on 66 six-byte literals, as the catalog lemmas show, but the control flow differs.
- `Watchers` is a value. `update_loop` changes it through a mutable reference, and `Update.UpdateLoop` returns the new value instead.

/** The auto-splitter's decisions: when to start, split and reset the
    timer, whether the game is loading, and what game time to show. Each is
    a function of the watchers and the settings. */
module Decisions {
  import opened Wrappers
  import opened Levels
  import opened Watcher
  import opened SplitterState
  import Update
  import HostTimer

  /** Byte arithmetic as the game module is built: results wrap modulo 256. */
  function WrapU8(x: int): (r: U8)
    ensures 0 <= x < 256 ==> r == x
    ensures x == -1 ==> r == 255
    ensures x == 256 ==> r == 0
  {
    x % 256
  }

  /** Whether to start the timer. */
  function Start(w: Watchers, s: Settings): bool
  {
    if w.levelId.None? || w.igt.None? || w.runStart.None? || w.tr1Rank.None? then false
    else
      var level := w.levelId.value;
      var igt := w.igt.value;
      var runStart := w.runStart.value;
      var tr1Rank := w.tr1Rank.value;
      match w.currentGameMode
      case EggShuttle =>
        s.startEggShuttle
        && level.current == TropicalResortAct1
        && (level.previous == NoLevel || (igt.previous > 0 && igt.current == 0))
      case AnyPercent =>
        (s.startAnyPercent && tr1Rank.current == -1
         && runStart.previous == 35 && runStart.current == 110)
        || (s.startSonicSimulator && level.current == SonicSimulatorAct1_1
            && level.previous == NoLevel)
  }

  /** Whether to split. */
  function Split(w: Watchers, s: Settings): bool
  {
    if w.levelId.None? then false
    else
      var levelId := w.levelId.value;
      if !SplitFlag(s, levelId.previous) then false
      else if w.goalRingReached.None? then false
      else
        var goal := w.goalRingReached.value;
        if w.currentGameMode == EggShuttle then
          if w.eggShuttleProgressiveId.None? then false
          else if w.eggShuttleTotalStages.None? then false
          else
            var progressiveId := w.eggShuttleProgressiveId.value;
            var totalStages := w.eggShuttleTotalStages.value;
            if progressiveId.previous == WrapU8(totalStages.current as int - 1)
            then goal.current && !goal.previous
            else progressiveId.current == WrapU8(progressiveId.previous as int + 1)
        else if levelId.previous == TerminalVelocityAct2 then goal.current && !goal.previous
        else !goal.current && goal.previous
  }

  /** Whether to reset the timer. */
  function Reset(w: Watchers, s: Settings): bool
  {
    if w.currentGameMode == EggShuttle then
      if w.igt.None? || w.goalRingReached.None? then false
      else
        s.resetEggShuttle
        && w.igt.value.previous != 0 && w.igt.value.current == 0
        && !w.goalRingReached.value.previous
    else if w.runStart.None? then false
    else s.resetAnyPercent && w.runStart.value.previous == 110 && w.runStart.value.current == 35
  }

  /** The game time is always reported as paused: the auto-splitter sets
      it itself every tick. */
  function IsLoading(w: Watchers, s: Settings): (r: Option<bool>)
    ensures r == Some(true)
  {
    Some(true)
  }

  /** The game time to show: the current in-game time plus the banked
      time, or nothing while the igt watcher has no pair. */
  function GameTime(w: Watchers, s: Settings): (r: Option<int>)
    ensures r.None? <==> w.igt.None?
    ensures r.Some? ==> r.value == w.igt.value.current + w.accumulatedIgt
  {
    match w.igt
    case None => None
    case Some(p) => Some(p.current + w.accumulatedIgt)
  }

  // ---------------------------------------------------------------- start

  /** Start never fires while one of the four watchers it reads is empty. */
  lemma StartNeedsPairs(w: Watchers, s: Settings)
    requires w.levelId.None? || w.igt.None? || w.runStart.None? || w.tr1Rank.None?
    ensures !Start(w, s)
  {
  }

  /** In Egg Shuttle mode the run starts when Tropical Resort Act 1 is
      entered from no level, or when its clock restarts from a positive
      time, and the toggle is on. */
  lemma StartEggShuttle(w: Watchers, s: Settings)
    requires w.levelId.Some? && w.igt.Some? && w.runStart.Some? && w.tr1Rank.Some?
    requires w.currentGameMode == EggShuttle
    ensures Start(w, s) <==>
      s.startEggShuttle && w.levelId.value.current == TropicalResortAct1
      && (w.levelId.value.previous == NoLevel
          || (w.igt.value.previous > 0 && w.igt.value.current == 0))
  {
  }

  /** Otherwise the run starts when the run-start byte steps from 35 to
      110 with a Tropical Resort rank of -1, or when Sonic Simulator Act 1-1
      is entered from no level, each under its own toggle. */
  lemma StartAnyPercent(w: Watchers, s: Settings)
    requires w.levelId.Some? && w.igt.Some? && w.runStart.Some? && w.tr1Rank.Some?
    requires w.currentGameMode == AnyPercent
    ensures Start(w, s) <==>
      (s.startAnyPercent && w.tr1Rank.value.current == -1 && w.runStart.value == Pair(35, 110))
      || (s.startSonicSimulator && w.levelId.value == Pair(NoLevel, SonicSimulatorAct1_1))
  {
  }

  /** A run-start byte that does not step exactly from 35 to 110 (staying
      at 35, or coming from 100) starts nothing unless Sonic Simulator Act
      1-1 was just entered. */
  lemma StartNeedsExactRunStartStep(w: Watchers, s: Settings)
    requires w.currentGameMode == AnyPercent
    requires w.runStart.Some? && w.runStart.value != Pair(35, 110)
    requires w.levelId.Some? ==> w.levelId.value != Pair(NoLevel, SonicSimulatorAct1_1)
    ensures !Start(w, s)
  {
  }

  /** With every start toggle off nothing starts the timer. */
  lemma StartTogglesOff(w: Watchers, s: Settings)
    requires !s.startAnyPercent && !s.startSonicSimulator && !s.startEggShuttle
    ensures !Start(w, s)
  {
  }

  // ---------------------------------------------------------------- split

  /** Split never fires without a level watcher, for the sentinel level,
      for a level whose toggle is off, or without a goal-ring watcher. */
  lemma SplitNeedsFlag(w: Watchers, s: Settings)
    requires w.levelId.None? || w.levelId.value.previous == NoLevel
             || !s.splitAfter(w.levelId.value.previous) || w.goalRingReached.None?
    ensures !Split(w, s)
  {
  }

  /** In Egg Shuttle mode, on the last stage (the stage index is one below
      the stage count, in byte arithmetic) a split is the goal ring being
      reached; on every other stage it is the stage index stepping up by
      one. */
  lemma SplitEggShuttle(w: Watchers, s: Settings)
    requires w.currentGameMode == EggShuttle
    requires w.levelId.Some? && SplitFlag(s, w.levelId.value.previous)
    requires w.goalRingReached.Some?
    requires w.eggShuttleProgressiveId.Some? && w.eggShuttleTotalStages.Some?
    ensures var p := w.eggShuttleProgressiveId.value;
            var g := w.goalRingReached.value;
            var n := w.eggShuttleTotalStages.value.current;
            Split(w, s) <==>
              if (n == 0 && p.previous == 255) || (n > 0 && p.previous == n - 1)
              then g == Pair(false, true)
              else (p.previous < 255 && p.current == p.previous + 1)
                   || (p.previous == 255 && p.current == 0)
  {
  }

  /** Egg Shuttle split needs both stage counters. */
  lemma SplitEggShuttleNeedsCounters(w: Watchers, s: Settings)
    requires w.currentGameMode == EggShuttle
    requires w.eggShuttleProgressiveId.None? || w.eggShuttleTotalStages.None?
    ensures !Split(w, s)
  {
  }

  /** Otherwise leaving the final level (Terminal Velocity Act 2) splits
      when the goal ring is reached, and every other level splits when the
      goal-ring flag falls. */
  lemma SplitAnyPercent(w: Watchers, s: Settings)
    requires w.currentGameMode == AnyPercent
    requires w.levelId.Some? && SplitFlag(s, w.levelId.value.previous)
    requires w.goalRingReached.Some?
    ensures w.levelId.value.previous == TerminalVelocityAct2 ==>
      (Split(w, s) <==> w.goalRingReached.value == Pair(false, true))
    ensures w.levelId.value.previous != TerminalVelocityAct2 ==>
      (Split(w, s) <==> w.goalRingReached.value == Pair(true, false))
  {
  }

  // ---------------------------------------------------------------- reset

  /** In Egg Shuttle mode a reset is the in-game clock dropping from a
      non-zero time to zero before the goal ring was reached. */
  lemma ResetEggShuttle(w: Watchers, s: Settings)
    requires w.currentGameMode == EggShuttle
    ensures Reset(w, s) <==>
      w.igt.Some? && w.goalRingReached.Some? && s.resetEggShuttle
      && w.igt.value.previous != 0 && w.igt.value.current == 0
      && !w.goalRingReached.value.previous
  {
  }

  /** Otherwise a reset is the run-start byte stepping from 110 back to 35. */
  lemma ResetAnyPercent(w: Watchers, s: Settings)
    requires w.currentGameMode == AnyPercent
    ensures Reset(w, s) <==> w.runStart.Some? && s.resetAnyPercent && w.runStart.value == Pair(110, 35)
  {
  }

  // ------------------------------------------------------ across decisions

  /** Every decision reacts to a change: with each watcher holding the
      same value twice, nothing starts, splits or resets. */
  lemma SettledIsQuiet(w: Watchers, s: Settings)
    requires Update.Settled(w)
    ensures !Start(w, s) && !Split(w, s) && !Reset(w, s)
  {
    var p := w.eggShuttleProgressiveId.value.previous;
    assert WrapU8(p as int + 1) != p;
  }

  /** After an update the game time is always reported: the sampled
      in-game time plus the banked time. */
  lemma GameTimeAfterUpdate(w: Watchers, r: Update.Reads, ts: HostTimer.TimerState, s: Settings)
    ensures GameTime(Update.Updated(w, r, ts), s) ==
      Some(Update.SampleOf(r).igt + Update.Updated(w, r, ts).accumulatedIgt)
  {
    Update.UpdatedPairs(w, r, ts);
  }

  /** In Egg Shuttle mode, with the clock dropping from a positive time to
      zero on Tropical Resort Act 1 before the goal ring, both reset and
      start fire. The start condition asks for a positive time and the
      reset condition for a non-zero one, so the two agree only because the
      time is not negative. */
  lemma EggShuttleRestart(w: Watchers, s: Settings)
    requires w.currentGameMode == EggShuttle && AllPairs(w)
    requires s.startEggShuttle && s.resetEggShuttle
    requires w.levelId.value.current == TropicalResortAct1
    requires w.igt.value.previous > 0 && w.igt.value.current == 0
    requires !w.goalRingReached.value.previous
    ensures Reset(w, s) && Start(w, s)
  {
  }

  /** With any negative time before the drop to zero on a level already
      being played, the two disagree: reset fires and start does not. */
  lemma EggShuttleNegativeIgt(w: Watchers, s: Settings)
    requires w.currentGameMode == EggShuttle && AllPairs(w)
    requires s.resetEggShuttle
    requires w.levelId.value.previous != NoLevel
    requires w.igt.value.previous < 0 && w.igt.value.current == 0
    requires !w.goalRingReached.value.previous
    ensures Reset(w, s) && !Start(w, s)
  {
  }
}

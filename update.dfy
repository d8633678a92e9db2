/** One pass of the per-tick update: sample the game, push the samples into
    the watchers, then maintain the game mode and the banked game time. */
module Update {
  import opened Wrappers
  import opened Levels
  import opened Watcher
  import opened HostTimer
  import opened SplitterState

  /** The outcome of every memory read of one tick. A pointer link is
      `true` when it could be followed; a value read is `None` when it
      failed. The three chains share the first two links. */
  datatype Reads = Reads(
    base: bool,
    root: bool,
    // Stage chain (current level, in-game time, goal-ring flags).
    stageTable: bool,
    stage: bool,
    levelCode: Option<RawCode>,
    igtHundredths: Option<int>,
    goalFlags: Option<bv8>,
    // Egg Shuttle chain (branches off the stage table).
    shuttle: bool,
    shuttleData: bool,
    totalStages: Option<U8>,
    progressiveId: Option<U8>,
    // Run-start chain (branches off the root).
    run: bool,
    runState: bool,
    runData: bool,
    runStart: Option<U8>,
    tr1Rank: Option<I8>)

  /** The values one tick pushes into the watchers. */
  datatype Sample = Sample(
    level: Level,
    igt: int,
    goalRing: bool,
    totalStages: U8,
    progressiveId: U8,
    runStart: U8,
    tr1Rank: I8)

  /** The goal ring is bit 5 of the stage flags byte. */
  function GoalRingBit(flags: bv8): bool
  {
    flags & (1 << 5) != 0
  }

  /** Bit 5 is the one worth 32. */
  lemma GoalRingBitValue(flags: bv8)
    ensures GoalRingBit(flags) <==> (flags as int / 32) % 2 == 1
  {
    var f := flags as int;
    assert GoalRingBit(flags) <==> flags & 32 == 32;
    assert f / 32 % 2 == 1 <==> f % 64 >= 32;
    GoalRingBitByCases(flags);
  }

  /** Case analysis behind `GoalRingBitValue`, one half-byte at a time. */
  lemma GoalRingBitByCases(flags: bv8)
    ensures flags & 32 == 32 <==> (flags as int) % 64 >= 32
  {
    var hi := flags >> 6;
    var lo := flags & 63;
    assert flags == (hi << 6) | lo;
    assert flags as int == (hi as int) * 64 + lo as int;
    assert flags & 32 == lo & 32;
    assert lo & 32 == 32 <==> lo >= 32;
  }

  /** What one tick reads, written as a function of the reads: every value
      whose chain fails stays at its default, the in-game time and the goal
      ring are read only while a level is being played, and a value read
      after another one in the same chain needs that one to succeed too. */
  function SampleOf(r: Reads): Sample
  {
    var stageOk := r.base && r.root && r.stageTable && r.stage;
    var level := if stageOk then Decode(r.levelCode) else NoLevel;
    var playing := stageOk && level != NoLevel;
    var shuttleOk := r.base && r.root && r.stageTable && r.shuttle && r.shuttleData
                     && r.totalStages.Some?;
    var runOk := r.base && r.root && r.run && r.runState && r.runData
                 && r.runStart.Some?;
    Sample(
      level,
      if playing && r.igtHundredths.Some? then r.igtHundredths.value * 10 else 0,
      if playing && r.goalFlags.Some? then GoalRingBit(r.goalFlags.value) else false,
      if shuttleOk then r.totalStages.value else 0,
      if shuttleOk && r.progressiveId.Some? then r.progressiveId.value else 0,
      if runOk then r.runStart.value else 0,
      if runOk && r.tr1Rank.Some? then r.tr1Rank.value else 0)
  }

  /** Every watcher receives this tick's sample. */
  function Push(w: Watchers, s: Sample): Watchers
  {
    w.(levelId := Record(w.levelId, s.level),
       igt := Record(w.igt, s.igt),
       goalRingReached := Record(w.goalRingReached, s.goalRing),
       eggShuttleProgressiveId := Record(w.eggShuttleProgressiveId, s.progressiveId),
       eggShuttleTotalStages := Record(w.eggShuttleTotalStages, s.totalStages),
       runStart := Record(w.runStart, s.runStart),
       tr1Rank := Record(w.tr1Rank, s.tr1Rank))
  }

  /** The category an Egg Shuttle stage count selects. */
  function ModeFor(totalStages: U8): GameMode
  {
    if 0 < totalStages <= 45 then EggShuttle else AnyPercent
  }

  /** While no run is in progress nothing is banked and the mode follows
      the Egg Shuttle stage count. */
  function IdleReset(w: Watchers, ts: TimerState): Watchers
  {
    if ts != NotRunning then w
    else
      var w1 := if w.accumulatedIgt != 0 then w.(accumulatedIgt := 0) else w;
      match w1.eggShuttleTotalStages
      case None => w1
      case Some(p) => w1.(currentGameMode := ModeFor(p.current))
  }

  /** When the in-game time drops from a non-zero value to zero, the time
      the finished stage showed is banked. */
  function Bank(w: Watchers): Watchers
  {
    match w.igt
    case Some(p) =>
      if p.previous != 0 && p.current == 0
      then w.(accumulatedIgt := w.accumulatedIgt + p.previous)
      else w
    case None => w
  }

  /** The watchers after one update from reads `r`, with the timer in
      phase `ts`. */
  function Updated(w: Watchers, r: Reads, ts: TimerState): Watchers
  {
    Bank(IdleReset(Push(w, SampleOf(r)), ts))
  }

  /** The reads of one tick, written as the game is read: defaults first,
      then every chain followed link by link. */
  method ReadSample(r: Reads) returns (s: Sample)
    ensures s == SampleOf(r)
  {
    var level := NoLevel;
    var igt := 0;
    var goalRing := false;
    var progressiveId: U8 := 0;
    var totalStages: U8 := 0;
    var runStart: U8 := 0;
    var tr1Rank: I8 := 0;

    if r.base {
      if r.root {
        if r.stageTable {
          if r.stage {
            level := Decode(r.levelCode);
            if level != NoLevel {
              igt := if r.igtHundredths.Some? then r.igtHundredths.value * 10 else 0;
              goalRing := if r.goalFlags.Some? then GoalRingBit(r.goalFlags.value) else false;
            }
          }
          if r.shuttle {
            if r.shuttleData {
              if r.totalStages.Some? {
                totalStages := r.totalStages.value;
                if r.progressiveId.Some? {
                  progressiveId := r.progressiveId.value;
                }
              }
            }
          }
        }
        if r.run {
          if r.runState {
            if r.runData {
              if r.runStart.Some? {
                runStart := r.runStart.value;
                if r.tr1Rank.Some? {
                  tr1Rank := r.tr1Rank.value;
                }
              }
            }
          }
        }
      }
    }
    s := Sample(level, igt, goalRing, totalStages, progressiveId, runStart, tr1Rank);
  }

  /** One update: sample the game, push every sample into its watcher, then
      change the derived state step by step. */
  method UpdateLoop(r: Reads, ts: TimerState, w: Watchers) returns (w': Watchers)
    ensures w' == Updated(w, r, ts)
  {
    var s := ReadSample(r);

    w' := w;
    w' := w'.(levelId := Record(w'.levelId, s.level));
    w' := w'.(igt := Record(w'.igt, s.igt));
    w' := w'.(goalRingReached := Record(w'.goalRingReached, s.goalRing));
    w' := w'.(eggShuttleProgressiveId := Record(w'.eggShuttleProgressiveId, s.progressiveId));
    w' := w'.(eggShuttleTotalStages := Record(w'.eggShuttleTotalStages, s.totalStages));
    w' := w'.(runStart := Record(w'.runStart, s.runStart));
    w' := w'.(tr1Rank := Record(w'.tr1Rank, s.tr1Rank));
    assert w' == Push(w, s);

    if ts == NotRunning {
      if w'.accumulatedIgt != 0 {
        w' := w'.(accumulatedIgt := 0);
      }
      if w'.eggShuttleTotalStages.Some? {
        var count := w'.eggShuttleTotalStages.value;
        w' := w'.(currentGameMode := if count.current > 0 && count.current <= 45 then EggShuttle else AnyPercent);
      }
    }

    if w'.igt.Some? {
      var igtPair := w'.igt.value;
      if igtPair.previous != 0 && igtPair.current == 0 {
        w' := w'.(accumulatedIgt := w'.accumulatedIgt + igtPair.previous);
      }
    }
  }

  /** The sample that leaves every watcher at its default. */
  function DefaultSample(): Sample
  {
    Sample(NoLevel, 0, false, 0, 0, 0, 0)
  }

  /** Which defaults survive a failed read. Without the first two links
      nothing is read; the level is a catalogued one or the sentinel; off a
      level the time and the goal ring keep their defaults; a broken Egg
      Shuttle chain leaves both of its counters at zero and a broken
      run-start chain leaves both of its values at zero. */
  lemma SampleDefaults(r: Reads)
    ensures !r.base || !r.root ==> SampleOf(r) == DefaultSample()
    ensures SampleOf(r).level == NoLevel || StageCode(SampleOf(r).level) == r.levelCode
    ensures SampleOf(r).level == NoLevel ==> SampleOf(r).igt == 0 && !SampleOf(r).goalRing
    ensures !(r.stageTable && r.shuttle && r.shuttleData && r.totalStages.Some?) ==>
      SampleOf(r).totalStages == 0 && SampleOf(r).progressiveId == 0
    ensures !(r.run && r.runState && r.runData && r.runStart.Some?) ==>
      SampleOf(r).runStart == 0 && SampleOf(r).tr1Rank == 0
    ensures r.igtHundredths.None? ==> SampleOf(r).igt == 0
    ensures r.goalFlags.None? ==> !SampleOf(r).goalRing
    ensures r.progressiveId.None? ==> SampleOf(r).progressiveId == 0
    ensures r.tr1Rank.None? ==> SampleOf(r).tr1Rank == 0
  {
    DecodeOnlyCatalog(r.levelCode);
  }

  /** The values read when their chain holds: the decoded level, the
      in-game time in hundredths times ten and the goal-ring bit while a
      level is played, and the counters, the run-start byte and the rank. */
  lemma SampleValues(r: Reads)
    ensures r.base && r.root && r.stageTable && r.stage ==> SampleOf(r).level == Decode(r.levelCode)
    ensures SampleOf(r).level != NoLevel && r.igtHundredths.Some? ==>
      SampleOf(r).igt == r.igtHundredths.value * 10
    ensures SampleOf(r).level != NoLevel && r.goalFlags.Some? ==>
      SampleOf(r).goalRing == GoalRingBit(r.goalFlags.value)
    ensures r.base && r.root && r.stageTable && r.shuttle && r.shuttleData && r.totalStages.Some? ==>
      SampleOf(r).totalStages == r.totalStages.value
    ensures r.base && r.root && r.stageTable && r.shuttle && r.shuttleData && r.totalStages.Some?
            && r.progressiveId.Some? ==>
      SampleOf(r).progressiveId == r.progressiveId.value
    ensures r.base && r.root && r.run && r.runState && r.runData && r.runStart.Some? ==>
      SampleOf(r).runStart == r.runStart.value
    ensures r.base && r.root && r.run && r.runState && r.runData && r.runStart.Some?
            && r.tr1Rank.Some? ==>
      SampleOf(r).tr1Rank == r.tr1Rank.value
  {
  }

  /** The three chains are read independently: two reads that agree on one
      chain's links and values give the same sample for that chain,
      whatever the other chains did. */
  lemma SampleChainsIndependent(r1: Reads, r2: Reads)
    ensures (r1.base, r1.root, r1.stageTable, r1.stage, r1.levelCode, r1.igtHundredths, r1.goalFlags)
            == (r2.base, r2.root, r2.stageTable, r2.stage, r2.levelCode, r2.igtHundredths, r2.goalFlags) ==>
      SampleOf(r1).level == SampleOf(r2).level && SampleOf(r1).igt == SampleOf(r2).igt
      && SampleOf(r1).goalRing == SampleOf(r2).goalRing
    ensures (r1.base, r1.root, r1.stageTable, r1.shuttle, r1.shuttleData, r1.totalStages, r1.progressiveId)
            == (r2.base, r2.root, r2.stageTable, r2.shuttle, r2.shuttleData, r2.totalStages, r2.progressiveId) ==>
      SampleOf(r1).totalStages == SampleOf(r2).totalStages
      && SampleOf(r1).progressiveId == SampleOf(r2).progressiveId
    ensures (r1.base, r1.root, r1.run, r1.runState, r1.runData, r1.runStart, r1.tr1Rank)
            == (r2.base, r2.root, r2.run, r2.runState, r2.runData, r2.runStart, r2.tr1Rank) ==>
      SampleOf(r1).runStart == SampleOf(r2).runStart && SampleOf(r1).tr1Rank == SampleOf(r2).tr1Rank
  {
  }

  /** A level is sampled exactly when the stage chain is intact and the
      code read is that level's catalogued code. */
  lemma SampleLevel(r: Reads, l: Level)
    requires l != NoLevel
    ensures SampleOf(r).level == l <==>
      r.base && r.root && r.stageTable && r.stage && r.levelCode == StageCode(l)
  {
    DecodeIff(r.levelCode, l);
  }

  /** After an update every watcher holds a pair whose `current` is this
      tick's sample and whose `previous` is the last tick's `current`, or
      this sample again on the first update. */
  lemma UpdatedPairs(w: Watchers, r: Reads, ts: TimerState)
    ensures AllPairs(Updated(w, r, ts))
    ensures Updated(w, r, ts).levelId.value.current == SampleOf(r).level
    ensures Updated(w, r, ts).igt.value.current == SampleOf(r).igt
    ensures Updated(w, r, ts).goalRingReached.value.current == SampleOf(r).goalRing
    ensures Updated(w, r, ts).eggShuttleTotalStages.value.current == SampleOf(r).totalStages
    ensures Updated(w, r, ts).eggShuttleProgressiveId.value.current == SampleOf(r).progressiveId
    ensures Updated(w, r, ts).runStart.value.current == SampleOf(r).runStart
    ensures Updated(w, r, ts).tr1Rank.value.current == SampleOf(r).tr1Rank
    ensures w.levelId.Some? ==> Updated(w, r, ts).levelId.value.previous == w.levelId.value.current
    ensures w.igt.Some? ==> Updated(w, r, ts).igt.value.previous == w.igt.value.current
    ensures w.goalRingReached.Some? ==>
      Updated(w, r, ts).goalRingReached.value.previous == w.goalRingReached.value.current
    ensures w.eggShuttleTotalStages.Some? ==>
      Updated(w, r, ts).eggShuttleTotalStages.value.previous == w.eggShuttleTotalStages.value.current
    ensures w.eggShuttleProgressiveId.Some? ==>
      Updated(w, r, ts).eggShuttleProgressiveId.value.previous == w.eggShuttleProgressiveId.value.current
    ensures w.runStart.Some? ==> Updated(w, r, ts).runStart.value.previous == w.runStart.value.current
    ensures w.tr1Rank.Some? ==> Updated(w, r, ts).tr1Rank.value.previous == w.tr1Rank.value.current
    ensures w.levelId.None? ==> Updated(w, r, ts).levelId.value.previous == SampleOf(r).level
    ensures w.igt.None? ==> Updated(w, r, ts).igt.value.previous == SampleOf(r).igt
    ensures w.goalRingReached.None? ==>
      Updated(w, r, ts).goalRingReached.value.previous == SampleOf(r).goalRing
    ensures w.eggShuttleTotalStages.None? ==>
      Updated(w, r, ts).eggShuttleTotalStages.value.previous == SampleOf(r).totalStages
    ensures w.eggShuttleProgressiveId.None? ==>
      Updated(w, r, ts).eggShuttleProgressiveId.value.previous == SampleOf(r).progressiveId
    ensures w.runStart.None? ==> Updated(w, r, ts).runStart.value.previous == SampleOf(r).runStart
    ensures w.tr1Rank.None? ==> Updated(w, r, ts).tr1Rank.value.previous == SampleOf(r).tr1Rank
  {
    var u, p, q := Updated(w, r, ts), Push(w, SampleOf(r)), SampleOf(r);
    assert u.levelId == p.levelId == Record(w.levelId, q.level);
    assert u.igt == p.igt == Record(w.igt, q.igt);
    assert u.goalRingReached == p.goalRingReached == Record(w.goalRingReached, q.goalRing);
    assert u.eggShuttleTotalStages == p.eggShuttleTotalStages == Record(w.eggShuttleTotalStages, q.totalStages);
    assert u.eggShuttleProgressiveId == p.eggShuttleProgressiveId
      == Record(w.eggShuttleProgressiveId, q.progressiveId);
    assert u.runStart == p.runStart == Record(w.runStart, q.runStart);
    assert u.tr1Rank == p.tr1Rank == Record(w.tr1Rank, q.tr1Rank);
  }

  /** Whether every pair holds the same sample twice, as after the first
      update of fresh watchers. */
  predicate Settled(w: Watchers)
  {
    AllPairs(w)
    && w.levelId.value.previous == w.levelId.value.current
    && w.igt.value.previous == w.igt.value.current
    && w.goalRingReached.value.previous == w.goalRingReached.value.current
    && w.eggShuttleTotalStages.value.previous == w.eggShuttleTotalStages.value.current
    && w.eggShuttleProgressiveId.value.previous == w.eggShuttleProgressiveId.value.current
    && w.runStart.value.previous == w.runStart.value.current
    && w.tr1Rank.value.previous == w.tr1Rank.value.current
  }

  /** The first update of fresh watchers sees no change in any value and
      banks nothing. */
  lemma FirstUpdateSettled(r: Reads, ts: TimerState)
    ensures Settled(Updated(DefaultWatchers(), r, ts))
    ensures Updated(DefaultWatchers(), r, ts).accumulatedIgt == 0
  {
  }

  /** Idle gating. With no run in progress the mode is `EggShuttle`
      exactly when the sampled stage count is between 1 and 45; during a
      run the mode is never changed. */
  lemma IdleGating(w: Watchers, r: Reads, ts: TimerState)
    ensures ts == NotRunning ==>
      (Updated(w, r, ts).currentGameMode == EggShuttle <==> 0 < SampleOf(r).totalStages <= 45)
    ensures ts != NotRunning ==> Updated(w, r, ts).currentGameMode == w.currentGameMode
  {
  }

  /** The time the in-game clock showed on the previous tick, as the igt
      watcher remembers it after this update. */
  function PreviousIgt(w: Watchers, r: Reads): int
  {
    if w.igt.Some? then w.igt.value.current else SampleOf(r).igt
  }

  /** IGT banking. The banked time is first cleared when no run is in
      progress, then grows by exactly the previous in-game time when that
      was non-zero and the clock now reads zero, and is otherwise kept. */
  lemma Banking(w: Watchers, r: Reads, ts: TimerState)
    ensures Updated(w, r, ts).accumulatedIgt ==
      (if ts == NotRunning then 0 else w.accumulatedIgt)
      + (if PreviousIgt(w, r) != 0 && SampleOf(r).igt == 0 then PreviousIgt(w, r) else 0)
  {
  }

  /** During a run the update does not depend on whether the timer is
      running or paused: only the idle phase clears and re-selects. */
  lemma PhaseOnlyIdleMatters(w: Watchers, r: Reads)
    ensures Updated(w, r, Running) == Updated(w, r, Paused)
  {
  }

  /** The watchers after one update per tick from the reads `rs`, the
      timer being in phase `tss[i]` at tick `i`. */
  function UpdatedAll(w: Watchers, rs: seq<Reads>, tss: seq<TimerState>): Watchers
    requires |tss| == |rs|
    decreases |rs|
  {
    if |rs| == 0 then w else UpdatedAll(Updated(w, rs[0], tss[0]), rs[1..], tss[1..])
  }

  /** Whether the in-game clock the watcher holds never showed a negative
      time. */
  predicate IgtNonNegative(w: Watchers)
  {
    w.igt.Some? ==> w.igt.value.previous >= 0 && w.igt.value.current >= 0
  }

  /** Over any number of ticks during a run, paused or not at each tick,
      as long as the game never reports a negative in-game time, the
      banked time never decreases and the mode never changes. */
  lemma {:induction false} AccumulatorNeverDecreases(w: Watchers, rs: seq<Reads>, tss: seq<TimerState>)
    requires |tss| == |rs|
    requires forall i :: 0 <= i < |tss| ==> tss[i] != NotRunning
    requires IgtNonNegative(w)
    requires forall i :: 0 <= i < |rs| && rs[i].igtHundredths.Some? ==> rs[i].igtHundredths.value >= 0
    ensures UpdatedAll(w, rs, tss).accumulatedIgt >= w.accumulatedIgt
    ensures UpdatedAll(w, rs, tss).currentGameMode == w.currentGameMode
    ensures IgtNonNegative(UpdatedAll(w, rs, tss))
    decreases |rs|
  {
    if |rs| > 0 {
      var w1 := Updated(w, rs[0], tss[0]);
      Banking(w, rs[0], tss[0]);
      IdleGating(w, rs[0], tss[0]);
      assert SampleOf(rs[0]).igt >= 0;
      assert IgtNonNegative(w1);
      AccumulatorNeverDecreases(w1, rs[1..], tss[1..]);
    }
  }
}

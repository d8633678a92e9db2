/** The state the auto-splitter keeps between ticks, and its settings. */
module SplitterState {
  import opened Wrappers
  import opened Levels
  import opened Watcher

  /** An unsigned byte read from the game. */
  type U8 = x: int | 0 <= x < 256

  /** A signed byte read from the game. */
  type I8 = x: int | -128 <= x < 128

  /** Which category the run is timed for. `AnyPercent` is the default. */
  datatype GameMode = AnyPercent | EggShuttle

  /** One watcher per value read each tick, plus the game time banked from
      finished stages (milliseconds) and the detected game mode. */
  datatype Watchers = Watchers(
    levelId: Option<Pair<Level>>,
    igt: Option<Pair<int>>,
    goalRingReached: Option<Pair<bool>>,
    eggShuttleTotalStages: Option<Pair<U8>>,
    eggShuttleProgressiveId: Option<Pair<U8>>,
    runStart: Option<Pair<U8>>,
    tr1Rank: Option<Pair<I8>>,
    accumulatedIgt: int,
    currentGameMode: GameMode)

  /** The watchers as they are created on attaching to the game: no pair
      yet, nothing banked, `AnyPercent`. */
  function DefaultWatchers(): (w: Watchers)
    ensures w.levelId.None? && w.igt.None? && w.goalRingReached.None?
    ensures w.eggShuttleTotalStages.None? && w.eggShuttleProgressiveId.None?
    ensures w.runStart.None? && w.tr1Rank.None?
    ensures w.accumulatedIgt == 0 && w.currentGameMode == AnyPercent
  {
    Watchers(None, None, None, None, None, None, None, 0, AnyPercent)
  }

  /** Whether every watcher holds a pair. */
  predicate AllPairs(w: Watchers)
  {
    w.levelId.Some? && w.igt.Some? && w.goalRingReached.Some?
    && w.eggShuttleTotalStages.Some? && w.eggShuttleProgressiveId.Some?
    && w.runStart.Some? && w.tr1Rank.Some?
  }

  /** The user's choices: the five start and reset toggles, and for every
      level whether finishing it splits. */
  datatype Settings = Settings(
    startAnyPercent: bool,
    startSonicSimulator: bool,
    startEggShuttle: bool,
    resetAnyPercent: bool,
    resetEggShuttle: bool,
    splitAfter: Level -> bool)

  /** Every toggle and every level switched on, as the settings start out. */
  function DefaultSettings(): (s: Settings)
    ensures s.startAnyPercent && s.startSonicSimulator && s.startEggShuttle
    ensures s.resetAnyPercent && s.resetEggShuttle
    ensures forall l :: s.splitAfter(l)
  {
    Settings(true, true, true, true, true, _ => true)
  }

  /** The split toggle for the level just left; the sentinel has none. */
  function SplitFlag(s: Settings, l: Level): (r: bool)
    ensures r <==> l != NoLevel && s.splitAfter(l)
  {
    if l == NoLevel then false else s.splitAfter(l)
  }
}

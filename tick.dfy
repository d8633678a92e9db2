/** One tick of the auto-splitter: update the watchers, then drive the
    timer from the decisions. */
module Tick {
  import opened Wrappers
  import opened HostTimer
  import opened SplitterState
  import opened Levels
  import opened Update
  import Decisions

  /** The command that follows the loading decision, if any. */
  function LoadingCommands(w: Watchers, s: Settings): seq<Command>
  {
    match Decisions.IsLoading(w, s)
    case None => []
    case Some(loading) => if loading then [PauseGameTime] else [ResumeGameTime]
  }

  /** The game-time command of a tick during a run, if any. */
  function GameTimeCommands(w: Watchers, s: Settings): seq<Command>
  {
    match Decisions.GameTime(w, s)
    case None => []
    case Some(t) => [SetGameTime(t)]
  }

  /** The decision command of a tick during a run: reset, else split. */
  function DecisionCommands(w: Watchers, s: Settings): seq<Command>
  {
    if Decisions.Reset(w, s) then [Command.Reset]
    else if Decisions.Split(w, s) then [Command.Split]
    else []
  }

  /** What a tick sends while a run is in progress (phase `ts` read before
      any command): loading, game time, then a reset or else a split. */
  function RunCommands(ts: TimerState, w: Watchers, s: Settings): seq<Command>
  {
    if ts == Running || ts == Paused then
      LoadingCommands(w, s) + GameTimeCommands(w, s) + DecisionCommands(w, s)
    else []
  }

  /** What a tick sends to start a run, given the phase `ts` read after the
      run commands: start, pause the game time, then loading. */
  function StartCommands(ts: TimerState, w: Watchers, s: Settings): seq<Command>
  {
    if ts == NotRunning && Decisions.Start(w, s) then [Command.Start, PauseGameTime] + LoadingCommands(w, s)
    else []
  }

  /** Every command one tick sends, in order, for watchers `w` already
      updated and the phase `ts` at the start of the tick. */
  function TickCommands(ts: TimerState, w: Watchers, s: Settings): seq<Command>
  {
    var run := RunCommands(ts, w, s);
    run + StartCommands(AfterAll(ts, run), w, s)
  }

  /** Sending one more command is one more step of the phase. */
  lemma AfterAllSnoc(ts: TimerState, cs: seq<Command>, c: Command)
    ensures AfterAll(ts, cs + [c]) == After(AfterAll(ts, cs), c)
  {
    AfterAllAppend(ts, cs, [c]);
    assert AfterAll(AfterAll(ts, cs), [c]) == AfterAll(After(AfterAll(ts, cs), c), []);
  }

  /** Sends `c` and keeps the ghost record of this tick's commands. */
  method SendLogged(timer: Timer, c: Command, ghost ts0: TimerState, ghost log0: seq<Command>,
                    ghost sent: seq<Command>) returns (ghost sent': seq<Command>)
    requires timer.log == log0 + sent && timer.state == AfterAll(ts0, sent)
    modifies timer
    ensures sent' == sent + [c]
    ensures timer.log == log0 + sent' && timer.state == AfterAll(ts0, sent')
  {
    timer.Send(c);
    AfterAllSnoc(ts0, sent, c);
    sent' := sent + [c];
  }

  /** The loading report: pause or resume the game time. */
  method ReportLoading(timer: Timer, w: Watchers, s: Settings)
    modifies timer
    ensures timer.log == old(timer.log) + LoadingCommands(w, s)
    ensures timer.state == AfterAll(old(timer.state), LoadingCommands(w, s))
  {
    ghost var sent: seq<Command> := [];
    var loading := Decisions.IsLoading(w, s);
    if loading.Some? {
      var c := if loading.value then PauseGameTime else ResumeGameTime;
      sent := SendLogged(timer, c, old(timer.state), old(timer.log), sent);
    }
  }

  /** The part of a tick that runs while a run is in progress. */
  method RunPhase(timer: Timer, w: Watchers, s: Settings)
    modifies timer
    ensures timer.log == old(timer.log) + RunCommands(old(timer.state), w, s)
    ensures timer.state == AfterAll(old(timer.state), RunCommands(old(timer.state), w, s))
  {
    ghost var ts0 := timer.state;
    ghost var log0 := timer.log;
    ghost var sent: seq<Command> := [];
    var ts := timer.state;
    if ts == Running || ts == Paused {
      ReportLoading(timer, w, s);
      sent := LoadingCommands(w, s);
      var gameTime := Decisions.GameTime(w, s);
      if gameTime.Some? {
        sent := SendLogged(timer, SetGameTime(gameTime.value), ts0, log0, sent);
      }
      if Decisions.Reset(w, s) {
        sent := SendLogged(timer, Command.Reset, ts0, log0, sent);
      } else if Decisions.Split(w, s) {
        sent := SendLogged(timer, Command.Split, ts0, log0, sent);
      }
    }
    assert sent == RunCommands(ts0, w, s);
  }

  /** The part of a tick that starts a run, reading the phase afresh. */
  method StartPhase(timer: Timer, w: Watchers, s: Settings)
    modifies timer
    ensures timer.log == old(timer.log) + StartCommands(old(timer.state), w, s)
    ensures timer.state == AfterAll(old(timer.state), StartCommands(old(timer.state), w, s))
  {
    ghost var ts0 := timer.state;
    ghost var log0 := timer.log;
    ghost var sent: seq<Command> := [];
    if timer.state == NotRunning && Decisions.Start(w, s) {
      sent := SendLogged(timer, Command.Start, ts0, log0, sent);
      sent := SendLogged(timer, PauseGameTime, ts0, log0, sent);
      ReportLoading(timer, w, s);
      AfterAllAppend(ts0, sent, LoadingCommands(w, s));
      sent := sent + LoadingCommands(w, s);
    }
    assert sent == StartCommands(ts0, w, s);
  }

  /** One tick: update the watchers, then, while a run is in progress,
      report loading and game time and reset or split; then, reading the
      phase again, start a run if it is not running and should start. */
  method Tick(timer: Timer, s: Settings, r: Reads, w: Watchers) returns (w': Watchers)
    modifies timer
    ensures w' == Updated(w, r, old(timer.state))
    ensures timer.log == old(timer.log) + TickCommands(old(timer.state), w', s)
    ensures timer.state == AfterAll(old(timer.state), TickCommands(old(timer.state), w', s))
  {
    w' := UpdateLoop(r, timer.state, w);
    ghost var ts0 := timer.state;
    RunPhase(timer, w', s);
    StartPhase(timer, w', s);
    TickCommandsSplit(ts0, w', s);
  }

  /** A tick's commands are its run commands followed by its start
      commands, and the phase moves through both in turn. */
  lemma TickCommandsSplit(ts: TimerState, w: Watchers, s: Settings)
    ensures var run := RunCommands(ts, w, s);
      var start := StartCommands(AfterAll(ts, run), w, s);
      TickCommands(ts, w, s) == run + start
      && AfterAll(ts, TickCommands(ts, w, s)) == AfterAll(AfterAll(ts, run), start)
  {
    var run := RunCommands(ts, w, s);
    AfterAllAppend(ts, run, StartCommands(AfterAll(ts, run), w, s));
  }

  /** The commands of a tick during a run, and the phase they leave. */
  lemma RunCommandsShape(ts: TimerState, w: Watchers, s: Settings)
    requires ts == Running || ts == Paused
    ensures RunCommands(ts, w, s) == [PauseGameTime] + GameTimeCommands(w, s) + DecisionCommands(w, s)
    ensures AfterAll(ts, RunCommands(ts, w, s)) == if Decisions.Reset(w, s) then NotRunning else ts
  {
    var cs := RunCommands(ts, w, s);
    assert cs == [PauseGameTime] + GameTimeCommands(w, s) + DecisionCommands(w, s);
    var quiet := [PauseGameTime] + GameTimeCommands(w, s);
    AfterAllQuiet(ts, quiet);
    AfterAllAppend(ts, quiet, DecisionCommands(w, s));
    if Decisions.Reset(w, s) {
      assert AfterAll(ts, [Command.Reset]) == AfterAll(NotRunning, []);
    } else if Decisions.Split(w, s) {
      assert AfterAll(ts, [Command.Split]) == AfterAll(ts, []);
    }
  }

  /** A tick with no run in progress sends nothing, or, when the run
      should start, a start followed by two game-time pauses (the explicit
      one and the loading report). */
  lemma IdleTickCommands(w: Watchers, s: Settings)
    ensures TickCommands(NotRunning, w, s) ==
      if Decisions.Start(w, s) then [Command.Start, PauseGameTime, PauseGameTime] else []
  {
  }

  /** A tick during a run pauses the game time, sets it when there is an
      in-game time, then resets, or else splits, or neither; only after a
      reset can the same tick start the next run. */
  lemma RunningTickCommands(ts: TimerState, w: Watchers, s: Settings)
    requires ts == Running || ts == Paused
    ensures TickCommands(ts, w, s) ==
      [PauseGameTime] + GameTimeCommands(w, s) + DecisionCommands(w, s)
      + (if Decisions.Reset(w, s) && Decisions.Start(w, s)
         then [Command.Start, PauseGameTime, PauseGameTime] else [])
  {
    RunCommandsShape(ts, w, s);
  }

  /** A tick sends at most one reset or split. */
  lemma AtMostOneDecision(ts: TimerState, w: Watchers, s: Settings)
    ensures multiset(TickCommands(ts, w, s))[Command.Reset]
            + multiset(TickCommands(ts, w, s))[Command.Split] <= 1
  {
    if ts == NotRunning {
      IdleTickCommands(w, s);
    } else {
      RunningTickCommands(ts, w, s);
      var gt := GameTimeCommands(w, s);
      var d := DecisionCommands(w, s);
      var st := if Decisions.Reset(w, s) && Decisions.Start(w, s)
                then [Command.Start, PauseGameTime, PauseGameTime] else [];
      assert TickCommands(ts, w, s) == [PauseGameTime] + gt + d + st;
      assert multiset(gt)[Command.Reset] == 0 && multiset(gt)[Command.Split] == 0;
      assert multiset(st)[Command.Reset] == 0 && multiset(st)[Command.Split] == 0;
      assert multiset(d)[Command.Reset] + multiset(d)[Command.Split] <= 1;
    }
  }

  /** During a run a reset pre-empts the split. */
  lemma ResetPreemptsSplit(ts: TimerState, w: Watchers, s: Settings)
    requires ts == Running || ts == Paused
    requires Decisions.Reset(w, s)
    ensures Command.Reset in TickCommands(ts, w, s)
    ensures Command.Split !in TickCommands(ts, w, s)
  {
    RunningTickCommands(ts, w, s);
    var gt := GameTimeCommands(w, s);
    var st := if Decisions.Start(w, s) then [Command.Start, PauseGameTime, PauseGameTime] else [];
    assert TickCommands(ts, w, s) == [PauseGameTime] + gt + [Command.Reset] + st;
    assert Command.Split !in gt && Command.Split !in st;
  }

  /** Whether every start in `cs` is immediately followed by a game-time
      pause. */
  predicate StartsPaused(cs: seq<Command>)
  {
    forall i :: 0 <= i < |cs| && cs[i] == Command.Start ==> i + 1 < |cs| && cs[i + 1] == PauseGameTime
  }

  /** Commands without a start keep that property when prepended. */
  lemma StartsPausedAppend(head: seq<Command>, tail: seq<Command>)
    requires Command.Start !in head
    requires StartsPaused(tail)
    ensures StartsPaused(head + tail)
  {
    var cs := head + tail;
    forall i | 0 <= i < |cs| && cs[i] == Command.Start
      ensures i + 1 < |cs| && cs[i + 1] == PauseGameTime
    {
      assert i >= |head|;
      assert tail[i - |head|] == Command.Start;
    }
  }

  /** Every start a tick sends is immediately followed by a game-time
      pause. */
  lemma StartThenPause(ts: TimerState, w: Watchers, s: Settings)
    ensures StartsPaused(TickCommands(ts, w, s))
  {
    var start := [Command.Start, PauseGameTime, PauseGameTime];
    assert StartsPaused(start);
    if ts == NotRunning {
      IdleTickCommands(w, s);
      StartsPausedAppend([], start);
      assert [] + start == start;
    } else {
      RunningTickCommands(ts, w, s);
      var head := [PauseGameTime] + GameTimeCommands(w, s) + DecisionCommands(w, s);
      assert Command.Start !in head;
      StartsPausedAppend(head, start);
      assert head + [] == head;
    }
  }

  /** A start is sent only when the start decision holds, and only from an
      idle timer or right after a reset. */
  lemma StartOnlyWhenIdle(ts: TimerState, w: Watchers, s: Settings)
    ensures Command.Start in TickCommands(ts, w, s) ==>
      Decisions.Start(w, s) && (ts == NotRunning || Decisions.Reset(w, s))
  {
    if ts == NotRunning {
      IdleTickCommands(w, s);
    } else {
      RunningTickCommands(ts, w, s);
      var head := [PauseGameTime] + GameTimeCommands(w, s) + DecisionCommands(w, s);
      assert Command.Start !in head;
    }
  }

  /** The phase a tick leaves: a run is started from an idle timer or
      right after a reset when the start decision holds; otherwise a reset
      ends the run, and nothing else changes the phase. */
  lemma TickPhase(ts: TimerState, w: Watchers, s: Settings)
    ensures AfterAll(ts, TickCommands(ts, w, s)) ==
      if ts == NotRunning || Decisions.Reset(w, s) then
        (if Decisions.Start(w, s) then Running else NotRunning)
      else ts
  {
    var run := RunCommands(ts, w, s);
    var start := StartCommands(AfterAll(ts, run), w, s);
    AfterAllAppend(ts, run, start);
    if ts != NotRunning {
      RunCommandsShape(ts, w, s);
    }
    var ts1 := AfterAll(ts, run);
    if start != [] {
      assert start == [Command.Start, PauseGameTime, PauseGameTime];
      assert AfterAll(ts1, start) == AfterAll(Running, [PauseGameTime, PauseGameTime]);
      AfterAllQuiet(Running, [PauseGameTime, PauseGameTime]);
    }
  }

  /** The first tick after attaching to the game starts, splits and resets
      nothing, whatever it reads and whatever the timer's phase: every
      watcher then holds its first sample twice. */
  lemma FirstTickQuiet(r: Reads, ts: TimerState, s: Settings)
    ensures var cs := TickCommands(ts, Updated(DefaultWatchers(), r, ts), s);
      Command.Start !in cs && Command.Split !in cs && Command.Reset !in cs
  {
    var w := Updated(DefaultWatchers(), r, ts);
    FirstUpdateSettled(r, ts);
    Decisions.SettledIsQuiet(w, s);
    if ts == NotRunning {
      IdleTickCommands(w, s);
    } else {
      RunningTickCommands(ts, w, s);
    }
  }

  /** In Egg Shuttle mode a restart of Tropical Resort Act 1 during a run
      resets the timer and starts the next run in the same tick. */
  lemma EggShuttleRestartTick(ts: TimerState, w: Watchers, s: Settings)
    requires ts == Running || ts == Paused
    requires w.currentGameMode == EggShuttle && AllPairs(w)
    requires s.startEggShuttle && s.resetEggShuttle
    requires w.levelId.value.current == TropicalResortAct1
    requires w.igt.value.previous > 0 && w.igt.value.current == 0
    requires !w.goalRingReached.value.previous
    ensures TickCommands(ts, w, s) ==
      [PauseGameTime, SetGameTime(w.accumulatedIgt), Command.Reset,
       Command.Start, PauseGameTime, PauseGameTime]
    ensures AfterAll(ts, TickCommands(ts, w, s)) == Running
  {
    Decisions.EggShuttleRestart(w, s);
    RunningTickCommands(ts, w, s);
    TickPhase(ts, w, s);
  }

  /** An Egg Shuttle restart during a run carries the banked time into the
      new run. The update of the restart tick banks the time the stage
      showed; that tick resets and starts, so the next tick already sees a
      running timer and the idle clear never happens. The next tick banks
      nothing either, since the clock already reads zero. */
  lemma EggShuttleRestartKeepsBank(ts: TimerState, w: Watchers, r: Reads, r2: Reads, s: Settings)
    requires ts == Running || ts == Paused
    requires w.currentGameMode == EggShuttle && AllPairs(w)
    requires s.startEggShuttle && s.resetEggShuttle
    requires w.igt.value.current > 0 && !w.goalRingReached.value.current
    requires SampleOf(r).level == TropicalResortAct1 && SampleOf(r).igt == 0
    ensures var w1 := Updated(w, r, ts);
      w1.accumulatedIgt == w.accumulatedIgt + w.igt.value.current
      && TickCommands(ts, w1, s) ==
           [PauseGameTime, SetGameTime(w1.accumulatedIgt), Command.Reset,
            Command.Start, PauseGameTime, PauseGameTime]
      && AfterAll(ts, TickCommands(ts, w1, s)) == Running
      && Updated(w1, r2, Running).accumulatedIgt == w1.accumulatedIgt
  {
    var w1 := Updated(w, r, ts);
    UpdatedPairs(w, r, ts);
    Banking(w, r, ts);
    IdleGating(w, r, ts);
    EggShuttleRestartTick(ts, w1, s);
    Banking(w1, r2, Running);
  }
}

/** The host timer the auto-splitter drives: its phase, and the log of the
    commands it has been sent. */
module HostTimer {

  /** The phases the auto-splitter distinguishes. */
  datatype TimerState = NotRunning | Running | Paused

  /** The commands the auto-splitter can send to the timer. Game time is
      in milliseconds. */
  datatype Command =
    | Start
    | Split
    | Reset
    | PauseGameTime
    | ResumeGameTime
    | SetGameTime(millis: int)

  /** The phase after one command: a start from `NotRunning` starts the
      run, a reset always ends it, and no other command changes the phase. */
  function After(ts: TimerState, c: Command): (r: TimerState)
    ensures c.Reset? ==> r == NotRunning
    ensures c.Start? && ts == NotRunning ==> r == Running
    ensures !c.Reset? && !(c.Start? && ts == NotRunning) ==> r == ts
  {
    match c
    case Start => if ts == NotRunning then Running else ts
    case Reset => NotRunning
    case _ => ts
  }

  /** The phase after a sequence of commands, sent in order. */
  function AfterAll(ts: TimerState, cs: seq<Command>): TimerState
    decreases |cs|
  {
    if |cs| == 0 then ts else AfterAll(After(ts, cs[0]), cs[1..])
  }

  /** Commands that neither start nor reset leave the phase alone. */
  lemma {:induction false} AfterAllQuiet(ts: TimerState, cs: seq<Command>)
    requires forall i :: 0 <= i < |cs| ==> !cs[i].Start? && !cs[i].Reset?
    ensures AfterAll(ts, cs) == ts
    decreases |cs|
  {
    if |cs| > 0 {
      AfterAllQuiet(After(ts, cs[0]), cs[1..]);
    }
  }

  /** Sending two batches in turn is sending their concatenation. */
  lemma {:induction false} AfterAllAppend(ts: TimerState, cs: seq<Command>, ds: seq<Command>)
    ensures AfterAll(ts, cs + ds) == AfterAll(AfterAll(ts, cs), ds)
    decreases |cs|
  {
    if |cs| > 0 {
      assert (cs + ds)[1..] == cs[1..] + ds;
      AfterAllAppend(After(ts, cs[0]), cs[1..], ds);
    } else {
      assert cs + ds == ds;
    }
  }

  /** The timer: its current phase and every command received so far. */
  class Timer {
    var state: TimerState
    var log: seq<Command>

    constructor (initial: TimerState)
      ensures state == initial && log == []
    {
      state := initial;
      log := [];
    }

    /** Sends one command. */
    method Send(c: Command)
      modifies this
      ensures state == After(old(state), c)
      ensures log == old(log) + [c]
    {
      state := After(state, c);
      log := log + [c];
    }
  }
}

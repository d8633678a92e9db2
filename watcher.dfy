/** The two-sample holder the auto-splitter keeps for every value it reads
    from the game. */
module Watcher {
  import opened Wrappers

  /** The value seen on the previous tick and the one seen on this tick
      (the source calls them `old` and `current`). */
  datatype Pair<T> = Pair(previous: T, current: T)

  /** Records a new sample. A watcher that has never been updated starts
      with the same sample as both `previous` and `current`; afterwards
      the former `current` moves to `previous`. */
  function Record<T>(w: Option<Pair<T>>, value: T): (r: Option<Pair<T>>)
    ensures r.Some? && r.value.current == value
    ensures w.Some? ==> r.value.previous == w.value.current
    ensures w.None? ==> r.value.previous == value
  {
    match w
    case None => Some(Pair(value, value))
    case Some(p) => Some(Pair(p.current, value))
  }

  /** The watcher after one update per tick with the samples `vs` in order. */
  function Feed<T>(w: Option<Pair<T>>, vs: seq<T>): Option<Pair<T>>
    decreases |vs|
  {
    if |vs| == 0 then w else Feed(Record(w, vs[0]), vs[1..])
  }

  /** After at least one update the watcher holds exactly the last two
      samples, so `previous` is always the previous tick's reading (or
      the first reading itself on a fresh watcher). */
  lemma {:induction false} FeedTracksLastTwo<T>(w: Option<Pair<T>>, vs: seq<T>)
    requires |vs| >= 1
    ensures Feed(w, vs).Some?
    ensures Feed(w, vs).value.current == vs[|vs| - 1]
    ensures Feed(w, vs).value.previous ==
      if |vs| >= 2 then vs[|vs| - 2]
      else if w.Some? then w.value.current
      else vs[0]
    decreases |vs|
  {
    if |vs| >= 2 {
      FeedTracksLastTwo(Record(w, vs[0]), vs[1..]);
    }
  }
}

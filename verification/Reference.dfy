/** The sequential containers that the lock-free ones are compared with: calls in the order they took effect, and what a
    container of one discipline holds after them. */
module Reference {

  /** The element type; the code only copies elements, so any type with equality would do. */
  type Value = int

  datatype Discipline = Lifo | Fifo

  /** A value put in, a value taken out, and a call that found nothing. */
  datatype Event = Put(v: Value) | Got(v: Value) | WasEmpty

  datatype Option = None | Some(value: seq<Value>)

  /** The contents, next value to take out first; `None` when an event could not have happened. */
  ghost function Replay(d: Discipline, log: seq<Event>): Option {
    if log == [] then Some([]) else Apply(d, Replay(d, log[..|log| - 1]), log[|log| - 1])
  }

  ghost function Apply(d: Discipline, before: Option, e: Event): Option {
    if before.None? then None else
      match e
      case Put(v) => Some(if d.Lifo? then [v] + before.value else before.value + [v])
      case Got(v) => if before.value != [] && before.value[0] == v then Some(before.value[1..]) else None
      case WasEmpty => if before.value == [] then before else None
  }

  lemma ReplayOneMore(d: Discipline, log: seq<Event>, e: Event)
    ensures Replay(d, log + [e]) == Apply(d, Replay(d, log), e)
  {
    assert (log + [e])[..|log|] == log;
  }

  ghost function AllPut(log: seq<Event>): seq<Value> {
    if log == [] then [] else AllPut(log[..|log| - 1]) + if log[|log| - 1].Put? then [log[|log| - 1].v] else []
  }

  ghost function AllGot(log: seq<Event>): seq<Value> {
    if log == [] then [] else AllGot(log[..|log| - 1]) + if log[|log| - 1].Got? then [log[|log| - 1].v] else []
  }

  /** First in, first out: everything ever put in is what was taken out, in order, followed by the contents. */
  lemma {:induction false} NothingLost(log: seq<Event>)
    requires Replay(Fifo, log).Some?
    ensures AllPut(log) == AllGot(log) + Replay(Fifo, log).value
  {
    if log != [] {
      var before, e := log[..|log| - 1], log[|log| - 1];
      NothingLost(before);
      if e.Got? {
        assert Replay(Fifo, before).value == [e.v] + Replay(Fifo, log).value;
      }
    }
  }
}

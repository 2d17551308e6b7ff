/** A debounced call (`useDebouncedCallback`, or a `setTimeout` whose handle
    is cleared before re-arming) seen without time: one slot that holds the
    argument of the latest call still waiting. Calling again supersedes the
    waiting argument; the timer elapsing, or `flush()`, runs the waiting call
    once and empties the slot. */
module Debounce {
  import opened Text

  datatype Slot<T> = Idle | Pending(value: T)

  /** What happens to a debounced callback: it is called, or its window
      elapses (the timer fires, or `flush()` forces it). */
  datatype Event<T> = Call(arg: T) | Elapse

  /** Calling the debounced function cancels what was waiting. */
  function Schedule<T>(s: Slot<T>, v: T): (r: Slot<T>)
    ensures r.Pending? && r.value == v
  {
    Pending(v)
  }

  /** The window elapses: the waiting argument, if any, is delivered. */
  function Fire<T>(s: Slot<T>): (r: (Slot<T>, Option<T>))
    ensures r.0 == Idle
    ensures s.Idle? <==> r.1.None?
    ensures s.Pending? ==> r.1 == Some(s.value)
  {
    match s
    case Idle => (Idle, None)
    case Pending(v) => (Idle, Some(v))
  }

  function Step<T>(s: Slot<T>, e: Event<T>): (Slot<T>, seq<T>) {
    match e
    case Call(v) => (Schedule(s, v), [])
    case Elapse =>
      var (s', out) := Fire(s);
      (s', if out.Some? then [out.value] else [])
  }

  /** The slot after a run of events, and the arguments actually delivered. */
  function Run<T>(s: Slot<T>, evs: seq<Event<T>>): (Slot<T>, seq<T>)
  {
    if evs == [] then (s, [])
    else
      var (s1, before) := Run(s, evs[..|evs| - 1]);
      var (s2, now) := Step(s1, evs[|evs| - 1]);
      (s2, before + now)
  }

  /** The argument of the latest call that no elapse has followed. */
  function Waiting<T>(evs: seq<Event<T>>): Option<T> {
    if evs == [] then None
    else match evs[|evs| - 1]
      case Call(v) => Some(v)
      case Elapse => None
  }

  function CountElapses<T>(evs: seq<Event<T>>): nat {
    if evs == [] then 0
    else CountElapses(evs[..|evs| - 1]) + (if evs[|evs| - 1].Elapse? then 1 else 0)
  }

  /** Starting idle, the slot holds exactly the latest call not yet delivered
      (a call is superseded by any later one). */
  lemma {:induction false} RunHoldsLatest<T>(evs: seq<Event<T>>)
    ensures Run(Idle, evs).0 == (if Waiting(evs).Some? then Pending(Waiting(evs).value) else Idle)
  {
    if evs != [] {
      RunHoldsLatest(evs[..|evs| - 1]);
    }
  }

  /** Nothing is ever delivered twice per window: at most one delivery per
      elapse. */
  lemma {:induction false} AtMostOneWritePerWindow<T>(s: Slot<T>, evs: seq<Event<T>>)
    ensures |Run(s, evs).1| <= CountElapses(evs)
  {
    if evs != [] {
      AtMostOneWritePerWindow(s, evs[..|evs| - 1]);
    }
  }

  /** A burst of calls followed by one elapse delivers exactly one argument,
      the last one. */
  lemma {:induction false} BurstCollapses<T>(args: seq<T>)
    requires args != []
    ensures Run(Idle, Calls(args) + [Elapse]).1 == [args[|args| - 1]]
  {
    var evs := Calls(args) + [Elapse];
    assert evs[..|evs| - 1] == Calls(args);
    NoWriteWithoutElapse(args);
    RunHoldsLatest(Calls(args));
  }

  function Calls<T>(args: seq<T>): (evs: seq<Event<T>>)
    ensures |evs| == |args| && forall i :: 0 <= i < |args| ==> evs[i] == Call(args[i])
  {
    seq(|args|, i requires 0 <= i < |args| => Call(args[i]))
  }

  lemma {:induction false} NoWriteWithoutElapse<T>(args: seq<T>)
    ensures Run(Idle, Calls(args)).1 == []
  {
    if args != [] {
      assert Calls(args)[..|args| - 1] == Calls(args[..|args| - 1]);
      NoWriteWithoutElapse(args[..|args| - 1]);
    }
  }

  /** A pending call is never lost: once the window elapses, the latest
      undelivered argument is the last thing delivered. */
  lemma {:induction false} LatestDeliveredOnElapse<T>(evs: seq<Event<T>>)
    requires Waiting(evs).Some?
    ensures var out := Run(Idle, evs + [Elapse]).1;
            out != [] && out[|out| - 1] == Waiting(evs).value
  {
    var all := evs + [Elapse];
    assert all[..|all| - 1] == evs;
    RunHoldsLatest(evs);
  }
}

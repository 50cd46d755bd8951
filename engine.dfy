/**
 * The split engine as an opaque external service (src/js.rs): the five calls
 * the component issues, and a replay of a call trace that checks the
 * component's use of the service: an engine is constructed only while none is
 * alive, and every other call goes to a live engine.
 */
module EngineTrace {
  import opened Wrappers
  import opened Props
  import opened SplitOptions
  import opened Dom

  /** A live engine, identified by the elements and options it was built from. */
  datatype Engine = Engine(elements: seq<Element>, options: Options)

  /** One call into the engine service. */
  datatype Call =
    | Construct(elements: seq<Element>, options: Options)
    | DestroyEngine(preserveStyles: bool, preserveGutter: bool)
    | GetSizes
    | SetSizes(sizes: seq<Size>)
    | Collapse(index: nat)

  /** The component's engine slot as the engine service sees it. */
  datatype Slot = Idle | Active(engine: Engine)

  function SlotOf(engine: Option<Engine>): Slot {
    match engine
    case None => Idle
    case Some(e) => Active(e)
  }

  /** One call against the slot, or None when the call is a misuse: a second
      engine constructed while one is alive, or a call with no engine. */
  function Step(s: Slot, c: Call): (r: Option<Slot>)
    ensures r.Some? && c.Construct? ==> s.Idle? && r.value == Active(Engine(c.elements, c.options))
    ensures r.Some? && c.DestroyEngine? ==> s.Active? && r.value == Idle
    ensures r.Some? && !c.Construct? && !c.DestroyEngine? ==> s.Active? && r.value == s
  {
    match c
    case Construct(elements, options) =>
      if s.Idle? then Some(Active(Engine(elements, options))) else None
    case DestroyEngine(_, _) =>
      if s.Active? then Some(Idle) else None
    case _ =>
      if s.Active? then Some(s) else None
  }

  /** The slot after a whole trace, starting with no engine; None once any call
      in it was a misuse. */
  function Replay(t: seq<Call>): Option<Slot>
    decreases |t|
  {
    if t == [] then Some(Idle)
    else
      match Replay(t[..|t| - 1])
      case None => None
      case Some(s) => Step(s, t[|t| - 1])
  }

  /** Runs the calls `u` from a slot. */
  function Run(s: Option<Slot>, u: seq<Call>): Option<Slot>
    decreases |u|
  {
    if u == [] || s.None? then s
    else Run(Step(s.value, u[0]), u[1..])
  }

  lemma ReplayAppendOne(t: seq<Call>, c: Call)
    ensures Replay(t + [c]) == if Replay(t).Some? then Step(Replay(t).value, c) else None
  {
    assert (t + [c])[..|t + [c]| - 1] == t;
  }

  /** Replaying a trace extended by `u` is running `u` from the replayed slot. */
  lemma {:induction false} ReplayAppend(t: seq<Call>, u: seq<Call>)
    ensures Replay(t + u) == Run(Replay(t), u)
    decreases |u|
  {
    if u == [] {
      assert t + u == t;
    } else {
      ReplayAppendOne(t, u[0]);
      assert t + u == (t + [u[0]]) + u[1..];
      ReplayAppend(t + [u[0]], u[1..]);
    }
  }

  /** A sound trace is sound at every point along it. */
  lemma {:induction false} ReplayPrefixSound(t: seq<Call>, k: nat)
    requires Replay(t).Some? && k <= |t|
    ensures Replay(t[..k]).Some?
    decreases |t|
  {
    if k < |t| {
      assert t[..|t| - 1][..k] == t[..k];
      ReplayPrefixSound(t[..|t| - 1], k);
    } else {
      assert t[..k] == t;
    }
  }

  function Constructs(t: seq<Call>): nat
    decreases |t|
  {
    if t == [] then 0 else Constructs(t[..|t| - 1]) + (if t[|t| - 1].Construct? then 1 else 0)
  }

  function Destroys(t: seq<Call>): nat
    decreases |t|
  {
    if t == [] then 0 else Destroys(t[..|t| - 1]) + (if t[|t| - 1].DestroyEngine? then 1 else 0)
  }

  /** Along a sound trace, the engines constructed and not yet destroyed are
      one while the slot is active and none while it is idle: never two. */
  lemma {:induction false} AtMostOneLiveEngine(t: seq<Call>)
    requires Replay(t).Some?
    ensures Constructs(t) == Destroys(t) + (if Replay(t).value.Active? then 1 else 0)
    decreases |t|
  {
    if t != [] {
      AtMostOneLiveEngine(t[..|t| - 1]);
    }
  }
}

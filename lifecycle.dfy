/**
 * The `Split` component (src/lib.rs, lines 98-293): an optional engine slot and
 * the three lifecycle hooks that drive the engine. Every engine call a hook
 * issues is appended to a ghost trace; each hook is specified by a function
 * giving the calls it issues, and the lemmas below state what those calls are.
 */
module Lifecycle {
  import opened Wrappers
  import opened Tokens
  import opened Props
  import opened SplitOptions
  import opened ChangeDetection
  import opened Dom
  import opened EngineTrace

  /** The `is_falsy` test on the options' `sizes` key: an absent key is
      undefined and falsy, a present array is truthy even when empty. */
  predicate IsFalsy(sizes: Option<seq<Size>>) {
    sizes.None?
  }

  /** The collapse call after an update, if any: a collapsed index is set and
      either the split was recreated or the old index was set and different. */
  function CollapseCalls(collapsed: Option<nat>, prevCollapsed: Option<nat>, recreated: bool): seq<Call> {
    if collapsed.Some? && ((prevCollapsed.Some? && collapsed.value != prevCollapsed.value) || recreated)
    then [Collapse(collapsed.value)]
    else []
  }

  /** The options a recreated engine is built from: those of the new props,
      with the old engine's live sizes filled in when the props give none,
      and the gutter factory replaced by the reuse adapter. */
  function RecreateOptions(p: SplitProps, reported: seq<Size>): Options {
    var base := OptionsOf(p);
    var sized := if IsFalsy(base.sizes) then base.(sizes := Some(reported)) else base;
    sized.(gutter := Some(ReuseGutter))
  }

  /** The engine calls of a recreate: read the live sizes when the props give
      none, destroy keeping styles and gutters, construct from the non-gutter
      children. */
  function RecreateCalls(p: SplitProps, children: seq<Element>, reported: seq<Size>): seq<Call> {
    (if IsFalsy(OptionsOf(p).sizes) then [GetSizes] else [])
    + [DestroyEngine(true, true), Construct(NonGutterChildren(children), RecreateOptions(p, reported))]
  }

  /** The calls of the first render: construct from all children, then
      collapse the requested pane. */
  function RenderedCalls(p: SplitProps, children: seq<Element>): seq<Call> {
    [Construct(children, OptionsOf(p))]
    + (if p.collapsed.Some? then [Collapse(p.collapsed.value)] else [])
  }

  /** The calls `changed` issues when the props go from `prev` to `p`, or the
      fault that aborts it before any call. `children` are the container's
      children at the time, `reported` the sizes the live engine would
      return, `hasEngine` whether the slot holds an engine. */
  function ChangePlan(p: SplitProps, prev: SplitProps, children: seq<Element>, reported: seq<Size>, hasEngine: bool): Result<seq<Call>, Fault> {
    match RecreateDecision(p, prev)
    case Err(f) => Err(f)
    case Ok(recreate) =>
      if recreate then
        if !hasEngine then Err(NoEngine)
        else Ok(RecreateCalls(p, children, reported) + CollapseCalls(p.collapsed, prev.collapsed, true))
      else
        var sizing := if p.sizes.Some? then CompareWithOld(p.sizes.value, prev.sizes, SizesLengthChanged) else Ok(false);
        match sizing
        case Err(f) => Err(f)
        case Ok(resize) =>
          var calls := (if resize then [SetSizes(p.sizes.value)] else [])
            + CollapseCalls(p.collapsed, prev.collapsed, false);
          if calls != [] && !hasEngine then Err(NoEngine) else Ok(calls)
  }

  /** The engine slot after a successful update. */
  function EngineAfterChange(p: SplitProps, prev: SplitProps, children: seq<Element>, reported: seq<Size>, engine: Option<Engine>): Option<Engine> {
    if RecreateDecision(p, prev) == Ok(true)
    then Some(Engine(NonGutterChildren(children), RecreateOptions(p, reported)))
    else engine
  }

  /** Unchanged props issue no engine call at all, with or without an engine. */
  lemma SamePropsIssueNothing(p: SplitProps, children: seq<Element>, reported: seq<Size>, hasEngine: bool)
    ensures ChangePlan(p, p, children, reported, hasEngine) == Ok([])
  {
    SamePropsKeepEngine(p);
    if p.sizes.Some? {
      assert p.sizes.value == p.sizes.value[..|p.sizes.value|];
    }
  }

  /** The recreate sequence: the live sizes are read first exactly when the
      props give none; then the old engine is destroyed keeping styles and
      gutters; then the new one is constructed from the non-gutter children,
      with the new props' options, the backfilled sizes and the reuse
      adapter; then, whenever a collapsed index is set, that pane is
      collapsed, whether or not the index changed. */
  lemma RecreateSequence(p: SplitProps, prev: SplitProps, children: seq<Element>, reported: seq<Size>)
    requires RecreateDecision(p, prev) == Ok(true)
    ensures var plan := ChangePlan(p, prev, children, reported, true);
      var k := if p.sizes.None? then 1 else 0;
      plan.Ok? && |plan.value| == k + 2 + (if p.collapsed.Some? then 1 else 0)
      && (p.sizes.None? ==> plan.value[0] == GetSizes)
      && plan.value[k] == DestroyEngine(true, true)
      && plan.value[k + 1] == Construct(NonGutterChildren(children),
           OptionsOf(p).(sizes := Some(p.sizes.GetOr(reported)), gutter := Some(ReuseGutter)))
      && (p.collapsed.Some? ==> plan.value[k + 2] == Collapse(p.collapsed.value))
  {
  }

  /** Without an engine, an update that must recreate aborts before any call. */
  lemma RecreateNeedsEngine(p: SplitProps, prev: SplitProps, children: seq<Element>, reported: seq<Size>)
    requires RecreateDecision(p, prev) == Ok(true)
    ensures ChangePlan(p, prev, children, reported, false) == Err(NoEngine)
  {
  }

  /** Every engine an update constructs is built from exactly the container's
      non-gutter children, in DOM order, so none of them is a gutter; and
      every destroy an update issues preserves styles and gutters. */
  lemma UpdateCallsShape(p: SplitProps, prev: SplitProps, children: seq<Element>, reported: seq<Size>, hasEngine: bool, i: nat)
    requires ChangePlan(p, prev, children, reported, hasEngine).Ok?
    requires i < |ChangePlan(p, prev, children, reported, hasEngine).value|
    ensures var c := ChangePlan(p, prev, children, reported, hasEngine).value[i];
      (c.Construct? ==> (c.elements == NonGutterChildren(children)
         && forall e :: e in c.elements ==> e in children && !e.isGutter))
      && (c.DestroyEngine? ==> c == DestroyEngine(true, true))
  {
    if RecreateDecision(p, prev) == Ok(true) {
      RecreateSequence(p, prev, children, reported);
    }
  }

  /** Without a recreate, `setSizes` is issued, with the full new list, exactly
      when new sizes are given and the new list is not the start of the old
      one (some shared index differs); it is never issued without new sizes,
      and nothing is destroyed or constructed. */
  lemma InPlaceResize(p: SplitProps, prev: SplitProps, children: seq<Element>, reported: seq<Size>, hasEngine: bool, s: seq<Size>)
    requires RecreateDecision(p, prev) == Ok(false)
    requires ChangePlan(p, prev, children, reported, hasEngine).Ok?
    ensures var calls := ChangePlan(p, prev, children, reported, hasEngine).value;
      (SetSizes(s) in calls <==> p.sizes == Some(s) && prev.sizes.Some? && s != prev.sizes.value[..|s|])
      && forall c :: c in calls ==> !c.Construct? && !c.DestroyEngine? && !c.GetSizes?
  {
  }

  /** Without a recreate, new sizes longer than the old ones, or new sizes
      where the old props had none, abort the update. */
  lemma ResizeFaults(p: SplitProps, prev: SplitProps, children: seq<Element>, reported: seq<Size>, hasEngine: bool)
    requires RecreateDecision(p, prev) == Ok(false)
    requires p.sizes.Some? && |p.sizes.value| > 0
    ensures prev.sizes.None? ==> ChangePlan(p, prev, children, reported, hasEngine) == Err(OldSizesMissing)
    ensures prev.sizes.Some? && |p.sizes.value| > |prev.sizes.value| ==>
      ChangePlan(p, prev, children, reported, hasEngine) == Err(SizesLengthChanged)
  {
  }

  /** After an update, pane c is collapsed exactly when c is the new collapsed
      index and either the split was recreated or the old index was set and
      different; the collapse is then the last call. */
  lemma CollapseRule(p: SplitProps, prev: SplitProps, children: seq<Element>, reported: seq<Size>, hasEngine: bool, c: nat)
    requires ChangePlan(p, prev, children, reported, hasEngine).Ok?
    ensures var calls := ChangePlan(p, prev, children, reported, hasEngine).value;
      (Collapse(c) in calls <==> (p.collapsed == Some(c)
        && (RecreateDecision(p, prev) == Ok(true) || (prev.collapsed.Some? && prev.collapsed != p.collapsed))))
      && (Collapse(c) in calls ==> calls[|calls| - 1] == Collapse(c))
  {
  }

  /** Setting a collapsed index where there was none issues no collapse unless
      the split is recreated. */
  lemma NewCollapsedIndexAloneIsSilent(p: SplitProps, prev: SplitProps, children: seq<Element>, reported: seq<Size>, hasEngine: bool)
    requires RecreateDecision(p, prev) == Ok(false) && prev.collapsed.None?
    requires ChangePlan(p, prev, children, reported, hasEngine).Ok?
    ensures forall c :: c in ChangePlan(p, prev, children, reported, hasEngine).value ==> !c.Collapse?
  {
  }

  /** Switching a horizontal split to vertical, all else equal, destroys the
      old engine keeping styles and gutters and constructs a new one whose
      options carry the "vertical" token and, when no sizes were given, the
      sizes the old engine reported. */
  lemma HorizontalToVertical(prev: SplitProps, children: seq<Element>, reported: seq<Size>)
    requires prev.direction == Some(Horizontal)
    ensures var p := prev.(direction := Some(Vertical));
      var plan := ChangePlan(p, prev, children, reported, true);
      var k := if prev.sizes.None? then 1 else 0;
      plan.Ok? && plan.value[k] == DestroyEngine(true, true)
      && plan.value[k + 1].Construct?
      && plan.value[k + 1].options.direction == Some("vertical")
      && (prev.sizes.None? ==> plan.value[k + 1].options.sizes == Some(reported))
  {
    var p := prev.(direction := Some(Vertical));
    if p.minSizes.Some? {
      assert p.minSizes.value == prev.minSizes.value;
    }
    DirectionChangeRecreates(p, prev);
    RecreateSequence(p, prev, children, reported);
  }

  /** Recreating over the layout the previous engine left behind constructs
      the new engine from exactly the original panes, in order. */
  lemma RecreateKeepsPanes(p: SplitProps, prev: SplitProps, panes: seq<Element>, gutters: seq<Element>, reported: seq<Size>)
    requires |panes| == |gutters| + 1 && AllPanes(panes) && AllGutters(gutters)
    requires RecreateDecision(p, prev) == Ok(true)
    ensures var plan := ChangePlan(p, prev, Laid(panes, gutters), reported, true);
      plan.Ok? && plan.value[if p.sizes.None? then 2 else 1].elements == panes
  {
    LaidFiltersToPanes(panes, gutters);
    RecreateSequence(p, prev, Laid(panes, gutters), reported);
  }

  /** The sizes backfill happens exactly when the sizes prop is absent: an
      empty list is a present, truthy array. The recreated engine then gets the
      prop's sizes, or the ones the old engine reported. */
  lemma SizesBackfilledIffUnset(p: SplitProps, reported: seq<Size>)
    ensures IsFalsy(OptionsOf(p).sizes) <==> p.sizes.None?
    ensures p.sizes == Some([]) ==> !IsFalsy(OptionsOf(p).sizes)
    ensures RecreateOptions(p, reported).sizes == Some(p.sizes.GetOr(reported))
  {
  }

  /** Run from a live engine, the calls of any update that does not abort
      never misuse the engine and leave the slot holding the engine the
      update promises: the rebuilt one after a recreate, the same one
      otherwise. Without an engine, an update that does not abort issues
      nothing. */
  lemma ChangePlanKeepsOneEngine(p: SplitProps, prev: SplitProps, children: seq<Element>, reported: seq<Size>, e: Engine)
    ensures ChangePlan(p, prev, children, reported, true).Ok? ==>
      Run(Some(Active(e)), ChangePlan(p, prev, children, reported, true).value)
        == Some(SlotOf(EngineAfterChange(p, prev, children, reported, Some(e))))
    ensures ChangePlan(p, prev, children, reported, false).Ok? ==>
      ChangePlan(p, prev, children, reported, false).value == []
  {
    var plan := ChangePlan(p, prev, children, reported, true);
    if plan.Ok? {
      var calls := plan.value;
      var collapse := CollapseCalls(p.collapsed, prev.collapsed, RecreateDecision(p, prev) == Ok(true));
      if RecreateDecision(p, prev) == Ok(true) {
        var built := Construct(NonGutterChildren(children), RecreateOptions(p, reported));
        var rest := [DestroyEngine(true, true), built] + collapse;
        var rebuilt := Engine(built.elements, built.options);
        RunKeepsEngine(rebuilt, collapse);
        assert ([built] + collapse)[1..] == collapse;
        assert Run(Some(Idle), [built] + collapse) == Some(Active(rebuilt));
        assert rest[1..] == [built] + collapse;
        assert Run(Some(Active(e)), rest) == Some(Active(rebuilt));
        if p.sizes.None? {
          assert calls == [GetSizes] + rest;
          assert calls[1..] == rest;
          assert Run(Some(Active(e)), calls) == Run(Some(Active(e)), rest);
        } else {
          assert calls == rest;
        }
      } else {
        RunKeepsEngine(e, calls);
      }
    }
  }

  /** Calls that neither construct nor destroy keep a live engine live. */
  lemma {:induction false} RunKeepsEngine(e: Engine, u: seq<Call>)
    requires forall i :: 0 <= i < |u| ==> !u[i].Construct? && !u[i].DestroyEngine?
    ensures Run(Some(Active(e)), u) == Some(Active(e))
    decreases |u|
  {
    if u != [] {
      RunKeepsEngine(e, u[1..]);
    }
  }

  /** Appending an update's calls to a sound trace with a live engine keeps
      the trace sound, with the slot the update promises. */
  lemma UpdateKeepsTraceSound(t: seq<Call>, p: SplitProps, prev: SplitProps, children: seq<Element>, reported: seq<Size>, e: Engine)
    requires Replay(t) == Some(Active(e))
    requires ChangePlan(p, prev, children, reported, true).Ok?
    ensures Replay(t + ChangePlan(p, prev, children, reported, true).value)
      == Some(SlotOf(EngineAfterChange(p, prev, children, reported, Some(e))))
  {
    ReplayAppend(t, ChangePlan(p, prev, children, reported, true).value);
    ChangePlanKeepsOneEngine(p, prev, children, reported, e);
  }

  class Split {
    /** `self.split`: the live engine, if any. */
    var engine: Option<Engine>
    /** Every engine call issued so far, oldest first. */
    ghost var trace: seq<Call>

    /** The slot holds exactly the engine the trace leaves alive, and the
        trace never misused the engine. */
    ghost predicate Valid()
      reads this
    {
      Replay(trace) == Some(SlotOf(engine))
    }

    /** `create`: no engine yet. */
    constructor ()
      ensures Valid() && engine == None && trace == []
    {
      engine := None;
      trace := [];
    }

    /** `rendered`: on the first render, constructs the engine from all the
        container's children and collapses the requested pane. The host calls
        it with `firstRender` once, right after `create`. */
    method Rendered(p: SplitProps, children: seq<Element>, firstRender: bool)
      requires Valid()
      requires firstRender ==> engine.None?
      modifies this
      ensures Valid()
      ensures firstRender ==> (trace == old(trace) + RenderedCalls(p, children)
        && engine == Some(Engine(children, OptionsOf(p))))
      ensures !firstRender ==> trace == old(trace) && engine == old(engine)
    {
      if firstRender {
        var options := MakeOptions(p);
        Issue(Construct(children, options));
        engine := Some(Engine(children, options));
        if p.collapsed.Some? {
          Issue(Collapse(p.collapsed.value));
        }
      }
    }

    /** `changed`: decides between recreate, in-place resize, collapse and
        nothing, and issues the corresponding engine calls. A fault aborts the
        hook before any engine call, leaving everything as it was. */
    method Changed(p: SplitProps, prev: SplitProps, children: seq<Element>, reported: seq<Size>) returns (outcome: Outcome<Fault>)
      requires Valid()
      modifies this
      ensures Valid()
      ensures match ChangePlan(p, prev, children, reported, old(engine).Some?)
        case Err(f) => outcome == Fail(f) && trace == old(trace) && engine == old(engine)
        case Ok(calls) => (outcome == Pass && trace == old(trace) + calls
          && engine == EngineAfterChange(p, prev, children, reported, old(engine)))
    {
      var decision := NeedsRecreate(p, prev);
      if decision.Err? {
        return Fail(decision.error);
      }
      var needsRecreate := decision.value;
      if needsRecreate {
        if engine.None? {
          return Fail(NoEngine);
        }
        Recreate(p, children, reported);
      } else if p.sizes.Some? {
        var sizeChanged := ScanChanged(p.sizes.value, prev.sizes, SizesLengthChanged);
        if sizeChanged.Err? {
          return Fail(sizeChanged.error);
        }
        if sizeChanged.value {
          if engine.None? {
            return Fail(NoEngine);
          }
          Issue(SetSizes(p.sizes.value));
        }
      }

      if p.collapsed.Some? && ((prev.collapsed.Some? && p.collapsed.value != prev.collapsed.value) || needsRecreate) {
        if engine.None? {
          return Fail(NoEngine);
        }
        Issue(Collapse(p.collapsed.value));
      }
      return Pass;
    }

    /** The recreate branch of `changed`: options from the new props, the live
        sizes filled in when the props give none, the old engine destroyed
        keeping styles and gutters, the reuse adapter installed, and a new
        engine built from the children that are not gutters. */
    method Recreate(p: SplitProps, children: seq<Element>, reported: seq<Size>)
      requires Valid() && engine.Some?
      modifies this
      ensures Valid()
      ensures trace == old(trace) + RecreateCalls(p, children, reported)
      ensures engine == Some(Engine(NonGutterChildren(children), RecreateOptions(p, reported)))
    {
      var options := MakeOptions(p);
      if IsFalsy(options.sizes) {
        Issue(GetSizes);
        options := options.(sizes := Some(reported));
      }
      Issue(DestroyEngine(true, true));
      options := options.(gutter := Some(ReuseGutter));
      var panes := NonGutterChildren(children);
      Issue(Construct(panes, options));
      engine := Some(Engine(panes, options));
    }

    /** `destroy`: tears the engine down without preserving styles or
        gutters and empties the slot. */
    method Destroy() returns (outcome: Outcome<Fault>)
      requires Valid()
      modifies this
      ensures Valid()
      ensures old(engine).None? ==> outcome == Fail(NoEngine) && trace == old(trace) && engine == None
      ensures old(engine).Some? ==> (outcome == Pass && trace == old(trace) + [DestroyEngine(false, false)]
        && engine == None)
    {
      if engine.None? {
        return Fail(NoEngine);
      }
      Issue(DestroyEngine(false, false));
      engine := None;
      outcome := Pass;
    }

    /** Records one engine call; the slot is updated by the caller. */
    method Issue(c: Call)
      requires Replay(trace).Some?
      modifies this`trace
      ensures trace == old(trace) + [c]
      ensures Replay(trace) == Step(Replay(old(trace)).value, c)
    {
      ReplayAppendOne(trace, c);
      trace := trace + [c];
    }
  }
}

/**
 * The update hook's change detection (src/lib.rs, lines 161-183, 251-265 and
 * 343-382): whether new props force the engine to be recreated, and whether
 * a size list changed index by index.
 */
module ChangeDetection {
  import opened Wrappers
  import opened Tokens
  import opened Props

  /** `other_props_changed`: one inequality per compared prop, or-ed together. */
  function OtherPropsChanged(p: SplitProps, prev: SplitProps): bool {
    p.maxSize != prev.maxSize
    || p.expandToMin != prev.expandToMin
    || p.gutterSize != prev.gutterSize
    || p.gutterAlign != prev.gutterAlign
    || p.snapOffset != prev.snapOffset
    || p.dragInterval != prev.dragInterval
    || p.direction != prev.direction
    || p.cursor != prev.cursor
  }

  /** The props `other_props_changed` does not compare never affect it: the
      sizes, both min props, max_sizes, collapsed, the classes, the gutter
      factory and the callbacks. */
  lemma OtherPropsIgnoreTheRest(p: SplitProps, prev: SplitProps, q: SplitProps)
    requires q.maxSize == p.maxSize && q.expandToMin == p.expandToMin
    requires q.gutterSize == p.gutterSize && q.gutterAlign == p.gutterAlign
    requires q.snapOffset == p.snapOffset && q.dragInterval == p.dragInterval
    requires q.direction == p.direction && q.cursor == p.cursor
    ensures OtherPropsChanged(q, prev) == OtherPropsChanged(p, prev)
    ensures OtherPropsChanged(prev, q) == OtherPropsChanged(prev, p)
  {
  }

  /** Changing any one of the eight compared props alone is a change, and
      the comparison is symmetric. */
  lemma EachComparedPropCounts(
    p: SplitProps, maxSize: Option<Size>, expandToMin: Option<bool>, gutterSize: Option<Size>,
    gutterAlign: Option<GutterAlign>, snapOffset: Option<Size>, dragInterval: Option<Size>,
    direction: Option<Direction>, cursor: Option<Cursor>)
    ensures OtherPropsChanged(p.(maxSize := maxSize), p) <==> maxSize != p.maxSize
    ensures OtherPropsChanged(p.(expandToMin := expandToMin), p) <==> expandToMin != p.expandToMin
    ensures OtherPropsChanged(p.(gutterSize := gutterSize), p) <==> gutterSize != p.gutterSize
    ensures OtherPropsChanged(p.(gutterAlign := gutterAlign), p) <==> gutterAlign != p.gutterAlign
    ensures OtherPropsChanged(p.(snapOffset := snapOffset), p) <==> snapOffset != p.snapOffset
    ensures OtherPropsChanged(p.(dragInterval := dragInterval), p) <==> dragInterval != p.dragInterval
    ensures OtherPropsChanged(p.(direction := direction), p) <==> direction != p.direction
    ensures OtherPropsChanged(p.(cursor := cursor), p) <==> cursor != p.cursor
    ensures !OtherPropsChanged(p, p)
  {
  }

  /** Comparing new against old props is comparing old against new. */
  lemma OtherPropsChangedSymmetric(p: SplitProps, prev: SplitProps)
    ensures OtherPropsChanged(p, prev) == OtherPropsChanged(prev, p)
  {
  }

  /** The debug log inside `other_props_changed` unwraps the new direction
      whenever it differs from the old one, so it panics when it became None. */
  predicate DirectionLogAborts(p: SplitProps, prev: SplitProps) {
    p.direction != prev.direction && p.direction.None?
  }

  /** Some index the two lists share holds different values. */
  predicate SomeIndexDiffers(news: seq<Size>, olds: seq<Size>) {
    exists i :: 0 <= i < |news| && i < |olds| && news[i] != olds[i]
  }

  /** Where the old list is long enough, "some index differs" means that the
      new list is not the start of the old one. */
  lemma SomeIndexDiffersIffNotPrefix(news: seq<Size>, olds: seq<Size>)
    requires |news| <= |olds|
    ensures SomeIndexDiffers(news, olds) <==> news != olds[..|news|]
  {
    if !SomeIndexDiffers(news, olds) {
      assert forall i :: 0 <= i < |news| ==> news[i] == olds[..|news|][i];
    } else {
      var i :| 0 <= i < |news| && i < |olds| && news[i] != olds[i];
      assert olds[..|news|][i] != news[i];
    }
  }

  /** What the element-wise comparison of a new list against the old props'
      list yields: for each new index in turn the old list is unwrapped and
      indexed, which aborts when it is absent or too short. */
  function CompareWithOld(news: seq<Size>, olds: Option<seq<Size>>, tooShort: Fault): (r: Result<bool, Fault>)
    ensures r.Err? <==> |news| > 0 && (olds.None? || |news| > |olds.value|)
    ensures r.Ok? && olds.Some? ==> (r.value <==> news != olds.value[..|news|])
    ensures r.Ok? && olds.None? ==> r == Ok(false)
  {
    if |news| == 0 then Ok(false)
    else if olds.None? then Err(OldSizesMissing)
    else if |news| > |olds.value| then Err(tooShort)
    else
      SomeIndexDiffersIffNotPrefix(news, olds.value);
      Ok(SomeIndexDiffers(news, olds.value))
  }

  /** The `for_each` loop that or-s `new[i] != old[i]` into a flag, with
      `unwrap_throw`/`expect_throw` aborting on a missing or short old list. */
  method ScanChanged(news: seq<Size>, olds: Option<seq<Size>>, tooShort: Fault) returns (r: Result<bool, Fault>)
    ensures r == CompareWithOld(news, olds, tooShort)
  {
    var changed := false;
    var i := 0;
    while i < |news|
      invariant 0 <= i <= |news|
      invariant i > 0 ==> olds.Some? && i <= |olds.value|
      invariant changed <==> exists j :: 0 <= j < i && news[j] != olds.value[j]
    {
      if olds.None? {
        return Err(OldSizesMissing);
      }
      if i >= |olds.value| {
        return Err(tooShort);
      }
      changed := changed || news[i] != olds.value[i];
      i := i + 1;
    }
    return Ok(changed);
  }

  /** The recreate decision of the update hook, `needs_recreate`, or the
      fault that aborts the hook before it is reached. */
  function RecreateDecision(p: SplitProps, prev: SplitProps): (r: Result<bool, Fault>)
    ensures r.Err? <==> (DirectionLogAborts(p, prev)
      || (p.minSizes.Some? && prev.minSizes.Some? && |p.minSizes.value| > |prev.minSizes.value|))
    ensures r.Err? && DirectionLogAborts(p, prev) ==> r.error == DirectionCleared
    ensures r.Err? && !DirectionLogAborts(p, prev) ==> r.error == MinSizesLengthChanged
    ensures r.Ok? ==> (r.value <==>
      OtherPropsChanged(p, prev)
      || p.minSizes.Some? != prev.minSizes.Some?
      || (p.minSizes.Some? && prev.minSizes.Some? && SomeIndexDiffers(p.minSizes.value, prev.minSizes.value))
      || (p.minSizes.None? && prev.minSizes.None? && p.minSize != prev.minSize))
  {
    if DirectionLogAborts(p, prev) then Err(DirectionCleared)
    else if p.minSizes.Some? && prev.minSizes.Some? then
      match CompareWithOld(p.minSizes.value, prev.minSizes, MinSizesLengthChanged)
      case Err(f) => Err(f)
      case Ok(changed) =>
        SomeIndexDiffersIffNotPrefix(p.minSizes.value, prev.minSizes.value);
        Ok(OtherPropsChanged(p, prev) || changed)
    else if p.minSizes.Some? || prev.minSizes.Some? then Ok(true)
    else Ok(OtherPropsChanged(p, prev) || p.minSize != prev.minSize)
  }

  /** The accumulation of `needs_recreate` at the start of `changed`: the
      other props, then the min_sizes lists index by index, their presence,
      or the scalar min_size. */
  method NeedsRecreate(p: SplitProps, prev: SplitProps) returns (r: Result<bool, Fault>)
    ensures r == RecreateDecision(p, prev)
  {
    if DirectionLogAborts(p, prev) {
      return Err(DirectionCleared);
    }
    var needsRecreate := OtherPropsChanged(p, prev);
    if p.minSizes.Some? && prev.minSizes.Some? {
      var minSizeChanged := ScanChanged(p.minSizes.value, prev.minSizes, MinSizesLengthChanged);
      if minSizeChanged.Err? {
        return Err(minSizeChanged.error);
      }
      needsRecreate := needsRecreate || minSizeChanged.value;
    } else if p.minSizes.Some? || prev.minSizes.Some? {
      needsRecreate := true;
    } else {
      needsRecreate := needsRecreate || p.minSize != prev.minSize;
    }
    return Ok(needsRecreate);
  }

  /** A direction that goes from set to unset aborts the update in the debug
      log, before anything else is decided; a direction that changes between
      two set values does not. */
  lemma ClearedDirectionAborts(p: SplitProps, prev: SplitProps)
    ensures prev.direction.Some? && p.direction.None? ==> RecreateDecision(p, prev) == Err(DirectionCleared)
    ensures p.direction.Some? ==> RecreateDecision(p, prev) != Err(DirectionCleared)
    ensures p.direction == prev.direction ==> RecreateDecision(p, prev) != Err(DirectionCleared)
  {
  }

  /** Unchanged props never force a recreate. */
  lemma SamePropsKeepEngine(p: SplitProps)
    ensures RecreateDecision(p, p) == Ok(false)
  {
  }

  /** A change of direction forces a recreate. */
  lemma DirectionChangeRecreates(p: SplitProps, prev: SplitProps)
    requires p.direction.Some? && p.direction != prev.direction
    requires p.minSizes.None? || prev.minSizes.None? || |p.minSizes.value| <= |prev.minSizes.value|
    ensures RecreateDecision(p, prev) == Ok(true)
  {
  }

  /** A min_sizes list that appears or disappears forces a recreate, whatever
      min_size says. */
  lemma MinSizesPresenceFlipRecreates(p: SplitProps, prev: SplitProps)
    requires p.minSizes.Some? != prev.minSizes.Some?
    requires !DirectionLogAborts(p, prev)
    ensures RecreateDecision(p, prev) == Ok(true)
  {
  }

  /** The scalar min_size is ignored while both props carry a list. */
  lemma MinSizeIgnoredBesideLists(p: SplitProps, prev: SplitProps, m: Option<Size>)
    requires p.minSizes.Some? && prev.minSizes.Some?
    ensures RecreateDecision(p.(minSize := m), prev) == RecreateDecision(p, prev)
  {
  }

  /** Changing only max_sizes never forces a recreate: the source compares
      max_size but not max_sizes. */
  lemma MaxSizesChangeIgnored(p: SplitProps, maxSizes: Option<seq<Size>>)
    ensures RecreateDecision(p.(maxSizes := maxSizes), p) == Ok(false)
  {
  }
}

# split-yew: the `Split` component, modelled in Dafny

`split-yew` wraps the imperative split-pane engine split.js in a Yew component.
The component turns its typed props (`SplitProps`) into split.js's sparse options
object, constructs the engine after the first render, and on every props update
decides whether the engine must be destroyed and rebuilt, can be resized in place,
should collapse a pane, or needs nothing. When it rebuilds, it keeps the live pane
sizes and reuses the gutter elements the old engine left in the DOM. On unmount it
tears the engine down.

The model follows `src/lib.rs`:

- `wrappers.dfy`: `Option`, `Result`, `Outcome`.
- `tokens.dfy`: `GutterAlign`, `Direction`, `Cursor` and the tokens their `Display`
  writes, each with an inverse.
- `props.dfy`: `SplitProps`, opaque JavaScript values, the gutter factory variants,
  and the faults that abort a hook.
- `options.dfy`: the options record, `set_option`, and `make_options_object`. The
  method builds the record key by key. The function `OptionsOf` specifies it.
- `change_detection.dfy`: `other_props_changed`, the `needs_recreate` accumulation
  and the index-by-index list comparison. The loops are methods; the spec
  functions are `RecreateDecision` and `CompareWithOld`.
- `dom.dfy`: container children as elements with a gutter marker; the non-gutter
  filter; the default gutter factory; the recreate-time reuse adapter; and the
  layout split.js leaves behind (one gutter before every pane but the first).
- `engine.dfy`: the five engine calls; a replay of a call trace that accepts only
  traces that never build a second live engine and never call a missing one; the
  count of live engines.
- `lifecycle.dfy`: the class `Split`. It has its engine slot, a ghost trace of
  engine calls, and the hooks `Rendered`, `Changed` and `Destroy`. `ChangePlan`
  gives the calls an update issues, and the lemmas beside it state the recreate,
  resize and collapse rules.

The engine, the DOM and time are outside the model. The container's children at
each hook are a parameter. So are the sizes the live engine would report from
`getSizes`. An abort (a thrown JavaScript error or a panic) is a `Fault`. Every
modelled fault happens before the hook's first engine call, so a failed hook
leaves the trace and the slot as they were.

The model follows these details of the code exactly, although a reader of the props' documentation might expect otherwise:

- `max_sizes` is not compared by `other_props_changed`, so changing only `max_sizes`
  never recreates the engine (`MaxSizesChangeIgnored`).
- The "falsy" test on the options' `sizes` key is true only when the `sizes` prop is
  absent. A JavaScript array, even an empty one, is truthy (`IsFalsy`).
- The element-wise comparisons index the old list at each new index. A new list
  longer than the old one aborts. A shorter new list that matches the start of the
  old one counts as unchanged (`CompareWithOld`). New `sizes` given where the old
  props had none abort unless the new list is empty.
- The debug log in `other_props_changed` unwraps the new direction whenever it
  changed, so a direction that goes from set to unset aborts the update
  (`DirectionLogAborts`).

## Model

| member | source | states |
|---|---|---|
| `Tokens.GutterAlignToken` | src/lib.rs:302-310 | the token of each alignment reads back as that alignment, so the three tokens are distinct |
| `Tokens.DirectionToken` | src/lib.rs:318-325 | the token of each direction reads back as that direction |
| `Tokens.CursorToken` | src/lib.rs:333-340 | the token of each cursor reads back as that cursor |
| `Tokens.TokensAreCanonical` | src/lib.rs:302-340 | a string that reads back as a variant is exactly that variant's token |
| `SplitOptions.OptionsOf` | src/lib.rs:400-469 | a present min/max list is emitted instead of the scalar, and the scalar only without a list; every optional key is absent iff its prop is absent; enum keys hold tokens that read back to the prop; `gutter` is always written |
| `SplitOptions.MakeOptions` | src/lib.rs:400-469 | setting the keys one by one, in the source's order, from an empty object yields exactly `OptionsOf` of the props |
| `ChangeDetection.OtherPropsIgnoreTheRest` | src/lib.rs:343-382 | props other than max_size, expand_to_min, gutter_size, gutter_align, snap_offset, drag_interval, direction and cursor never affect the comparison, on either side |
| `ChangeDetection.EachComparedPropCounts` | src/lib.rs:374-381 | changing any one of the eight compared props alone is a change exactly when its value differs; equal props are no change |
| `ChangeDetection.OtherPropsChangedSymmetric` | src/lib.rs:374-381 | comparing new against old gives the same answer as old against new |
| `ChangeDetection.SomeIndexDiffersIffNotPrefix` | src/lib.rs:166-176 | when the old list is long enough, some index differs iff the new list is not the start of the old list |
| `ChangeDetection.CompareWithOld` | src/lib.rs:254-264 | the comparison aborts iff the new list is non-empty and the old one is absent or shorter; otherwise it reports a change iff the new list is not the start of the old |
| `ChangeDetection.ScanChanged` | src/lib.rs:252-264 | the loop that ors `new[i] != old[i]`, aborting on a missing or short old list, computes `CompareWithOld` |
| `ChangeDetection.NeedsRecreate` | src/lib.rs:161-183 | the accumulation of `needs_recreate` computes `RecreateDecision` |
| `ChangeDetection.RecreateDecision` | src/lib.rs:161-183 | aborts iff the direction became unset or both min_sizes lists exist and the new one is longer; otherwise recreate iff the other props changed, or exactly one min_sizes list exists, or both exist and a shared index differs, or neither exists and min_size differs |
| `ChangeDetection.ClearedDirectionAborts` | src/lib.rs:368-372 | a direction that goes from set to unset aborts the update; a set new direction, or an unchanged one, never raises that abort |
| `ChangeDetection.SamePropsKeepEngine` | src/lib.rs:161-183 | unchanged props never recreate |
| `ChangeDetection.DirectionChangeRecreates` | src/lib.rs:374-381 | a change to a set direction recreates |
| `ChangeDetection.MinSizesPresenceFlipRecreates` | src/lib.rs:179-180 | a min_sizes list that appears or disappears recreates, whatever min_size says |
| `ChangeDetection.MinSizeIgnoredBesideLists` | src/lib.rs:163-178 | while both props carry min_sizes, the scalar min_size does not affect the decision |
| `ChangeDetection.MaxSizesChangeIgnored` | src/lib.rs:343-382 | changing only max_sizes never recreates |
| `Dom.NonGutterChildren` | src/lib.rs:234-245 | the filtered list holds exactly the children without the gutter marker, and no more elements than the children |
| `Dom.NonGutterChildrenAppend` | src/lib.rs:241-245 | filtering distributes over concatenation, so DOM order is kept |
| `Dom.NonGutterChildrenIdempotent` | src/lib.rs:241-245 | filtering twice is filtering once |
| `Dom.DefaultGuttersFilterToPanes` | src/lib.rs:53-75 | gutters made by the default factory carry the marker, so a container laid out with them filters back to exactly the panes |
| `Dom.UnmarkedGutterTakenForPane` | src/lib.rs:241-245 | a gutter without the marker, as a caller-supplied factory may make, is kept by the filter and taken for a pane |
| `Dom.ReuseClass` | src/lib.rs:214-218 | the adapter's class for "horizontal" or "vertical" is the class the default factory gives |
| `Dom.ReuseGutterFor` | src/lib.rs:205-231 | the adapter fails iff the pane is the first child; otherwise it returns the pane's previous sibling, same identity and marker, with the direction's class and an empty style, and the children with that sibling replaced |
| `Dom.LaidFiltersToPanes` | src/lib.rs:234-245 | filtering the panes-and-gutters layout gives back exactly the panes, in order |
| `Dom.ReuseFindsPreviousGutter` | src/lib.rs:205-231 | on that layout, the adapter for pane k returns the gutter before it, still marked and re-styled, and the layout still filters to the panes |
| `EngineTrace.Step` | src/js.rs:8-21 | construct succeeds only with no live engine and makes it live; destroy needs a live engine and empties the slot; the other calls need a live engine and keep it |
| `EngineTrace.ReplayAppend` | src/lib.rs:98-101 | replaying a trace extended by some calls is running those calls from the slot the trace left |
| `EngineTrace.ReplayPrefixSound` | src/lib.rs:98-101 | a trace that never misuses the engine never misuses it at any point along the way |
| `EngineTrace.AtMostOneLiveEngine` | src/lib.rs:98-101 | along such a trace, constructs minus destroys is 1 while an engine is live and 0 otherwise |
| `Lifecycle.Split.constructor` | src/lib.rs:125-130 | a new component has no engine and has issued no call |
| `Lifecycle.Split.Rendered` | src/lib.rs:107-123 | the first render constructs from all children with the props' options, then collapses the set index; later renders issue nothing; the slot keeps matching the trace |
| `Lifecycle.Split.Changed` | src/lib.rs:144-283 | an update aborts with `ChangePlan`'s fault and changes nothing, or issues exactly `ChangePlan`'s calls and holds the rebuilt engine after a recreate, the old one otherwise |
| `Lifecycle.Split.Recreate` | src/lib.rs:185-250 | the recreate branch issues `RecreateCalls` and leaves the engine built from the non-gutter children with the recreate options |
| `Lifecycle.Split.Destroy` | src/lib.rs:285-292 | teardown issues one destroy without preserving styles or gutters and empties the slot; with no engine it aborts |
| `Lifecycle.SizesBackfilledIffUnset` | src/lib.rs:191-199 | the live sizes are filled in iff the sizes prop is absent (an empty list is present); the rebuilt engine gets the prop's sizes or the reported ones |
| `Lifecycle.ChangePlanKeepsOneEngine` | src/lib.rs:144-283 | the calls of any update that does not abort, run from a live engine, never misuse it and leave the rebuilt engine after a recreate, the same one otherwise; without an engine such an update issues nothing |
| `Lifecycle.UpdateKeepsTraceSound` | src/lib.rs:144-283 | appending an update's calls to a sound trace with a live engine keeps it sound, with the slot the update promises |
| `Lifecycle.SamePropsIssueNothing` | src/lib.rs:144-283 | an update with unchanged props issues no engine call |
| `Lifecycle.RecreateSequence` | src/lib.rs:185-250 | a recreate reads the live sizes first iff no sizes prop is given, then destroys keeping styles and gutters, then constructs from the non-gutter children with the new options, the backfilled sizes and the reuse adapter, then collapses the set index |
| `Lifecycle.RecreateNeedsEngine` | src/lib.rs:191-201 | a recreate with an empty slot aborts |
| `Lifecycle.UpdateCallsShape` | src/lib.rs:201-250 | every construct an update issues gets exactly the non-gutter children, so never a gutter; every destroy it issues preserves styles and gutters |
| `Lifecycle.InPlaceResize` | src/lib.rs:251-272 | without a recreate, setSizes(s) is issued iff s is the new sizes and it is not the start of the old sizes; nothing is destroyed, constructed or read |
| `Lifecycle.ResizeFaults` | src/lib.rs:254-264 | without a recreate, non-empty new sizes abort when the old sizes are absent or shorter |
| `Lifecycle.CollapseRule` | src/lib.rs:275-280 | collapse(c) is issued iff c is the new collapsed index and the split was recreated or the old index was set and different; it is the last call |
| `Lifecycle.NewCollapsedIndexAloneIsSilent` | src/lib.rs:275-280 | going from no collapsed index to one, without a recreate, issues no collapse |
| `Lifecycle.HorizontalToVertical` | src/lib.rs:185-250 | a horizontal-to-vertical switch destroys keeping styles and gutters and constructs with "vertical" and, when no sizes prop is given, the reported sizes |
| `Lifecycle.RecreateKeepsPanes` | src/lib.rs:203-250 | recreating over the layout the old engine left constructs from exactly the original panes |

## Left out

- `view` and the `html!` markup, Yew's scheduling, and the `true` that `changed` always returns (src/lib.rs:132-142, 282).
- `NodeRef::cast` and `children()`: the container's children are a parameter of each hook, and a missing container is not modelled.
- The `children` and `class` props: they only feed `view`; `class` is kept as an opaque value.
- The `console::log_1` calls. The one effect of logging that matters, the unwrap of an unset direction, is modelled as the fault `DirectionCleared`.
- split.js itself (src/js.rs is an interface only): drag math, snapping, the collapse policy, and how it inserts gutters. The layout it leaves behind is assumed, not derived (`Dom.Laid`). What `getSizes` returns is a parameter.
- Dom.LaidFiltersToPanes: assumes every gutter in the layout carries the marker. That holds for the default factory (`Dom.DefaultGuttersFilterToPanes`) and for gutters the reuse adapter re-styles. A caller-supplied `gutter` function need not set it. Then, on recreate, its gutters are taken for panes and passed to the new engine (`Dom.UnmarkedGutterTakenForPane`). `Lifecycle.RecreateKeepsPanes` carries the same premise.
- Aborts after the old engine is destroyed: the missing-container `expect_throw` (src/lib.rs:238) and throws inside the reuse adapter while the new engine is built (src/lib.rs:208-225, 250). Either one leaves the destroyed engine in the slot. The model has no such fault: the container's children are always given, and split.js runs the adapter outside the model.
- JavaScript functions (`gutter`, `elementStyle`, `gutterStyle`, `onDrag*`) are opaque tokens. The model keeps which one is installed, not what it does when split.js calls it.
- Lifecycle.Split.Rendered: requires an empty slot on the first render. The host renders for the first time exactly once, right after `create`. The source does not check this itself.
- Dom.FreshGutter: does not model the failures of `window`, `document` or `create_element`; the fresh identity is a parameter.
- Dom.ReuseGutterFor: the previous sibling is taken among the container's element children. Text nodes, which `previous_sibling` would also return, are not modelled. A failing `set_attribute` is not modelled.
- Floating point: sizes are integers. IEEE equality is not reflexive for NaN, so with a NaN size the source would see a change on every update; the model does not capture this.
- `usize` width of `collapsed`: indices are unbounded naturals.

/**
 * The container's DOM children as the component sees them: elements that
 * may carry the `__isSplitGutter` marker. Holds the default gutter factory
 * (src/lib.rs, lines 53-75), the gutter adapter installed on recreate (lines
 * 205-231), the child filter that drops marked gutters (lines 234-245), and
 * the layout the engine leaves behind (one gutter before every pane but the
 * first), against which the adapter and the filter are proved.
 */
module Dom {
  import opened Wrappers
  import opened Props

  /** A DOM element: its identity, whether it carries the gutter marker, its
      class name and its inline style attribute. */
  datatype Element = Element(id: nat, isGutter: bool, className: string, style: string)

  /** The children that are not marked as gutters, in DOM order. */
  function NonGutterChildren(children: seq<Element>): (r: seq<Element>)
    ensures |r| <= |children|
    ensures forall e :: e in r ==> e in children && !e.isGutter
    ensures forall e :: e in children && !e.isGutter ==> e in r
    decreases |children|
  {
    if children == [] then []
    else (if children[0].isGutter then [] else [children[0]]) + NonGutterChildren(children[1..])
  }

  /** Filtering distributes over concatenation, so it keeps DOM order. */
  lemma {:induction false} NonGutterChildrenAppend(a: seq<Element>, b: seq<Element>)
    ensures NonGutterChildren(a + b) == NonGutterChildren(a) + NonGutterChildren(b)
    decreases |a|
  {
    if a == [] {
      assert a + b == b;
    } else {
      assert (a + b)[1..] == a[1..] + b;
      NonGutterChildrenAppend(a[1..], b);
    }
  }

  /** Filtering twice is filtering once. */
  lemma {:induction false} NonGutterChildrenIdempotent(children: seq<Element>)
    ensures NonGutterChildren(NonGutterChildren(children)) == NonGutterChildren(children)
    decreases |children|
  {
    if children != [] {
      var head := if children[0].isGutter then [] else [children[0]];
      NonGutterChildrenAppend(head, NonGutterChildren(children[1..]));
      NonGutterChildrenIdempotent(children[1..]);
      assert NonGutterChildren(head) == head by {
        if head != [] {
          assert head[1..] == [];
        }
      }
    }
  }

  /** The class name a gutter for `direction` receives. */
  function GutterClass(direction: string): string {
    "gutter gutter-" + direction
  }

  /** The default gutter factory: a fresh div carrying the gutter marker, with
      the class for the direction the engine passes. `id` stands for the fresh
      identity the document gives the new element. */
  function FreshGutter(id: nat, direction: string): (g: Element)
    ensures g.isGutter && g.id == id && g.className == GutterClass(direction)
  {
    Element(id, true, GutterClass(direction), "")
  }

  /** The class the recreate adapter sets: the horizontal class for
      "horizontal", the vertical class for every other direction token. */
  function ReuseClass(direction: string): (c: string)
    ensures direction == "horizontal" || direction == "vertical" ==> c == GutterClass(direction)
  {
    if direction == "horizontal" then "gutter gutter-horizontal" else "gutter gutter-vertical"
  }

  /** The recreate adapter, asked for the gutter of the pane at position `pos`
      of the container's children: it takes that pane's previous sibling,
      sets its class for the direction and empties its style attribute, and
      returns it together with the updated children. The first child has no
      previous sibling, which the source turns into an undefined element and
      then fails on. */
  function ReuseGutterFor(children: seq<Element>, pos: nat, direction: string): (r: Result<(Element, seq<Element>), Fault>)
    requires pos < |children|
    ensures r.Err? <==> pos == 0
    ensures r.Err? ==> r.error == NoPreviousSibling
    ensures r.Ok? ==> var (g, after) := r.value;
      g.id == children[pos - 1].id && g.isGutter == children[pos - 1].isGutter
      && g.className == ReuseClass(direction) && g.style == ""
      && after == children[pos - 1 := g]
  {
    if pos == 0 then Err(NoPreviousSibling)
    else
      var g := children[pos - 1].(className := ReuseClass(direction), style := "");
      Ok((g, children[pos - 1 := g]))
  }

  /** The children after the engine has laid out `panes` with `gutters`
      between them: pane 0, gutter 0, pane 1, gutter 1, ..., last pane. */
  function Laid(panes: seq<Element>, gutters: seq<Element>): (r: seq<Element>)
    requires |panes| == |gutters| + 1
    ensures |r| == 2 * |gutters| + 1
    ensures forall k :: 0 <= k < |panes| ==> r[2 * k] == panes[k]
    ensures forall k :: 0 <= k < |gutters| ==> r[2 * k + 1] == gutters[k]
    decreases |gutters|
  {
    if gutters == [] then [panes[0]]
    else [panes[0], gutters[0]] + Laid(panes[1..], gutters[1..])
  }

  predicate AllPanes(s: seq<Element>) {
    forall i :: 0 <= i < |s| ==> !s[i].isGutter
  }

  predicate AllGutters(s: seq<Element>) {
    forall i :: 0 <= i < |s| ==> s[i].isGutter
  }

  /** Filtering a laid-out container gives back exactly the panes, in order:
      the gutters the engine inserted are never taken for panes. */
  lemma {:induction false} LaidFiltersToPanes(panes: seq<Element>, gutters: seq<Element>)
    requires |panes| == |gutters| + 1
    requires AllPanes(panes) && AllGutters(gutters)
    ensures NonGutterChildren(Laid(panes, gutters)) == panes
    decreases |gutters|
  {
    if gutters == [] {
      assert NonGutterChildren([panes[0]]) == [panes[0]] by {
        assert [panes[0]][1..] == [];
      }
      assert panes == [panes[0]];
    } else {
      var rest := Laid(panes[1..], gutters[1..]);
      NonGutterChildrenAppend([panes[0], gutters[0]], rest);
      assert NonGutterChildren([panes[0], gutters[0]]) == [panes[0]] by {
        assert [panes[0], gutters[0]][1..] == [gutters[0]];
        assert [gutters[0]][1..] == [];
      }
      LaidFiltersToPanes(panes[1..], gutters[1..]);
      assert panes == [panes[0]] + panes[1..];
    }
  }

  /** The gutters the default factory creates for a split in `direction`,
      one per identity in `ids`. */
  function DefaultGutters(ids: seq<nat>, direction: string): (gs: seq<Element>)
    ensures |gs| == |ids|
  {
    seq(|ids|, i requires 0 <= i < |ids| => FreshGutter(ids[i], direction))
  }

  /** With the default factory, the gutters the engine inserts carry the marker,
      so filtering the laid-out container gives back exactly the panes. */
  lemma DefaultGuttersFilterToPanes(panes: seq<Element>, ids: seq<nat>, direction: string)
    requires |panes| == |ids| + 1 && AllPanes(panes)
    ensures NonGutterChildren(Laid(panes, DefaultGutters(ids, direction))) == panes
  {
    LaidFiltersToPanes(panes, DefaultGutters(ids, direction));
  }

  /** A gutter that does not carry the marker, as a caller-supplied factory
      may create, is kept by the filter and taken for a pane. */
  lemma UnmarkedGutterTakenForPane(a: Element, g: Element, b: Element)
    requires !a.isGutter && !g.isGutter && !b.isGutter
    ensures NonGutterChildren(Laid([a, b], [g])) == [a, g, b]
  {
    assert Laid([a, b], [g]) == [a, g, b] by {
      assert [a, b][1..] == [b];
    }
    assert NonGutterChildren([b]) == [b] by {
      assert [b][1..] == [];
    }
    assert NonGutterChildren([g, b]) == [g, b] by {
      assert [g, b][1..] == [b];
    }
    assert [a, g, b][1..] == [g, b];
  }

  /** On a laid-out container the adapter, asked for pane k (k >= 1), finds the
      gutter the previous engine left before it: the same element, still
      marked, re-styled for the new direction; the container afterwards is the
      same layout with that gutter re-styled, so it still filters to the panes. */
  lemma ReuseFindsPreviousGutter(panes: seq<Element>, gutters: seq<Element>, k: nat, direction: string)
    requires |panes| == |gutters| + 1 && 1 <= k < |panes|
    requires AllPanes(panes) && AllGutters(gutters)
    ensures var r := ReuseGutterFor(Laid(panes, gutters), 2 * k, direction);
      r.Ok? && r.value.0.id == gutters[k - 1].id && r.value.0.isGutter
      && r.value.0.className == ReuseClass(direction) && r.value.0.style == ""
      && r.value.1 == Laid(panes, gutters[k - 1 := r.value.0])
      && NonGutterChildren(r.value.1) == panes
  {
    var dom := Laid(panes, gutters);
    assert dom[2 * (k - 1) + 1] == gutters[k - 1];
    var g := dom[2 * k - 1].(className := ReuseClass(direction), style := "");
    var gs := gutters[k - 1 := g];
    var after := Laid(panes, gs);
    assert |after| == |dom[2 * k - 1 := g]|;
    forall j | 0 <= j < |after|
      ensures after[j] == dom[2 * k - 1 := g][j]
    {
      if j % 2 == 0 {
        assert after[2 * (j / 2)] == panes[j / 2];
        assert dom[2 * (j / 2)] == panes[j / 2];
      } else {
        assert after[2 * (j / 2) + 1] == gs[j / 2];
        assert dom[2 * (j / 2) + 1] == gutters[j / 2];
      }
    }
    assert after == dom[2 * k - 1 := g];
    LaidFiltersToPanes(panes, gs);
  }
}

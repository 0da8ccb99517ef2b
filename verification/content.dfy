// The page-side authoring engine: the content script's closure state, the
// overlay elements it renders in document order, the shared clip-path
// definitions, and the lists it hands to SAVE_BLURS.

module Content {
  import opened Protocol
  import opened PathData
  import opened Geometry

  /** An element's inline pointer-events style: not set (the stylesheet
      decides), "auto" or "none". */
  datatype PointerEvents = Unset | Auto | Off

  /** A rendered overlay element. `node` stands for the identity of the DOM
      node (handlers hold node references, and ids may repeat); `shape` is
      what saving reads back from it: id, data-type, offset geometry and the
      stored path data ("" when none); `blur` is its backdrop-filter radius
      and `shown` whether its display is left at "". */
  datatype Element = Element(node: nat, shape: Shape, blur: int, pointer: PointerEvents, shown: bool)

  /** The two pointer-event regimes of setInteractionState. */
  datatype Interaction = Draw | DragErase

  /** The element being drawn: its node and the id its clip path is keyed by. */
  datatype InProgress = InProgress(node: nat, id: string)

  /** A drag in progress: the node and the pointer's offset from its corner. */
  datatype Drag = Drag(node: nat, offsetX: int, offsetY: int)

  function ClipKey(id: string): string {
    "clip_" + id
  }

  /** The record saving reads off an element hidden with `display: none`:
      its offset position and size are all 0. */
  function Collapsed(s: Shape): Shape {
    s.(x := 0, y := 0, width := 0, height := 0)
  }

  /** The record saving reads off one element: its offset box while it is
      shown, a collapsed one while it is hidden. */
  function Recorded(e: Element): Shape {
    if e.shown then e.shape else Collapsed(e.shape)
  }

  /** The records saving reads off the elements, in document order. Id,
      type and path data always come from the element; its position and
      size are those of its box while it is shown, and 0 while hidden. */
  function Snapshot(es: seq<Element>): (r: seq<Shape>)
    ensures |r| == |es|
    ensures forall i :: 0 <= i < |es| ==>
      r[i].id == es[i].shape.id && r[i].kind == es[i].shape.kind && r[i].path == es[i].shape.path
    ensures forall i :: 0 <= i < |es| && es[i].shown ==> r[i] == es[i].shape
    ensures forall i :: 0 <= i < |es| && !es[i].shown ==> r[i].x == r[i].y == r[i].width == r[i].height == 0
  {
    seq(|es|, i requires 0 <= i < |es| => Recorded(es[i]))
  }

  /** The record an element created from `s` reads back as: every field
      copied, path data kept only on a custom shape. */
  function Restored(s: Shape): Shape {
    if s.kind == Custom then s else s.(path := "")
  }

  function Canonical(bs: seq<Shape>): seq<Shape> {
    seq(|bs|, i requires 0 <= i < |bs| => Restored(bs[i]))
  }

  /** A record only a custom shape carries path data in. */
  predicate IsCanonical(s: Shape) {
    s.kind != Custom ==> s.path == ""
  }

  /** Restoring is exactly the identity on canonical records and makes
      every record canonical. */
  lemma RestoredCanonical(s: Shape)
    ensures IsCanonical(Restored(s))
    ensures Restored(s) == s <==> IsCanonical(s)
  {
  }

  /** Re-creating elements from a list reproduces it exactly when every
      record in it is canonical, and re-creating twice changes nothing more. */
  lemma {:induction false} CanonicalFixpoint(bs: seq<Shape>)
    ensures Canonical(bs) == bs <==> forall i :: 0 <= i < |bs| ==> IsCanonical(bs[i])
    ensures Canonical(Canonical(bs)) == Canonical(bs)
  {
    if forall i :: 0 <= i < |bs| ==> IsCanonical(bs[i]) {
      forall i | 0 <= i < |bs| ensures Canonical(bs)[i] == bs[i] {
        RestoredCanonical(bs[i]);
      }
    } else {
      var i :| 0 <= i < |bs| && !IsCanonical(bs[i]);
      RestoredCanonical(bs[i]);
      assert Canonical(bs)[i] != bs[i];
    }
    forall i | 0 <= i < |bs| ensures Canonical(Canonical(bs))[i] == Canonical(bs)[i] {
      RestoredCanonical(bs[i]);
      RestoredCanonical(Restored(bs[i]));
    }
  }

  /** The element createBlurElement builds for a record. */
  function Materialize(s: Shape, node: nat, blur: int, sessionActive: bool): Element {
    Element(node, Restored(s), blur, if sessionActive then Auto else Unset, true)
  }

  /** The two lists hold the same nodes in the same order. */
  predicate SameNodes(a: seq<Element>, b: seq<Element>) {
    |a| == |b| && forall i :: 0 <= i < |a| ==> a[i].node == b[i].node
  }

  function WithPointer(es: seq<Element>, p: PointerEvents): (r: seq<Element>)
    ensures SameNodes(r, es)
  {
    seq(|es|, i requires 0 <= i < |es| => es[i].(pointer := p))
  }

  function WithBlur(es: seq<Element>, n: int): (r: seq<Element>)
    ensures SameNodes(r, es)
  {
    seq(|es|, i requires 0 <= i < |es| => es[i].(blur := n))
  }

  function WithShown(es: seq<Element>, v: bool): (r: seq<Element>)
    ensures SameNodes(r, es)
  {
    seq(|es|, i requires 0 <= i < |es| => es[i].(shown := v))
  }

  /** The element `node` placed on box `b`; every other element as it was. */
  function Reshaped(es: seq<Element>, node: nat, b: Box): (r: seq<Element>)
    ensures SameNodes(r, es)
  {
    seq(|es|, i requires 0 <= i < |es| =>
      if es[i].node == node
      then es[i].(shape := es[i].shape.(x := b.left, y := b.top, width := b.width, height := b.height))
      else es[i])
  }

  function WithPath(es: seq<Element>, node: nat, d: string): (r: seq<Element>)
    ensures SameNodes(r, es)
  {
    seq(|es|, i requires 0 <= i < |es| =>
      if es[i].node == node then es[i].(shape := es[i].shape.(path := d)) else es[i])
  }

  function Moved(es: seq<Element>, node: nat, x: int, y: int): (r: seq<Element>)
    ensures SameNodes(r, es)
  {
    seq(|es|, i requires 0 <= i < |es| =>
      if es[i].node == node then es[i].(shape := es[i].shape.(x := x, y := y)) else es[i])
  }

  /** Every registered drag listener, in registration order, places its
      element at the pointer minus its offset. */
  function Dragged(es: seq<Element>, ds: seq<Drag>, px: int, py: int): seq<Element>
    decreases |ds|
  {
    if |ds| == 0 then es
    else Dragged(Moved(es, ds[0].node, px - ds[0].offsetX, py - ds[0].offsetY), ds[1..], px, py)
  }

  /** The clip definitions after re-creating the elements of `bs` in order. */
  function WithClips(m: map<string, string>, bs: seq<Shape>): map<string, string>
    decreases |bs|
  {
    if |bs| == 0 then m
    else
      var m' := WithClips(m, bs[..|bs| - 1]);
      var s := bs[|bs| - 1];
      if s.kind == Custom && s.path != "" then m'[ClipKey(s.id) := s.path] else m'
  }

  /** Every custom record with path data has its clip definition. */
  lemma {:induction false} WithClipsCovers(m: map<string, string>, bs: seq<Shape>)
    ensures forall i :: 0 <= i < |bs| && bs[i].kind == Custom && bs[i].path != "" ==> ClipKey(bs[i].id) in WithClips(m, bs)
    ensures m.Keys <= WithClips(m, bs).Keys
    decreases |bs|
  {
    if |bs| > 0 {
      var init := bs[..|bs| - 1];
      WithClipsCovers(m, init);
      forall i | 0 <= i < |bs| - 1 ensures bs[i] == init[i] { }
    }
  }

  /** A drag started with the pointer at (px0, py0) and moved to (px1, py1)
      shifts its element by exactly the pointer's displacement, keeping its
      size and every other element. */
  lemma DragDisplacement(es: seq<Element>, i: nat, px0: int, py0: int, px1: int, py1: int)
    requires i < |es|
    requires forall j, k :: 0 <= j < k < |es| ==> es[j].node != es[k].node
    ensures var d := Drag(es[i].node, px0 - es[i].shape.x, py0 - es[i].shape.y);
      var r := Dragged(es, [d], px1, py1);
      && |r| == |es|
      && r[i].shape == es[i].shape.(x := es[i].shape.x + (px1 - px0), y := es[i].shape.y + (py1 - py0))
      && (forall k :: 0 <= k < |es| && k != i ==> r[k] == es[k])
  {
    var d := Drag(es[i].node, px0 - es[i].shape.x, py0 - es[i].shape.y);
    var m := Moved(es, d.node, px1 - d.offsetX, py1 - d.offsetY);
    assert Dragged(es, [d], px1, py1) == Dragged(m, [], px1, py1) == m;
  }

  /** Elements created from a list of records, one per record in order,
      read back as the list with non-custom path data dropped. */
  lemma MaterializedSnapshot(es: seq<Element>, bs: seq<Shape>, base: nat, blur: int, sessionActive: bool)
    requires |es| == |bs|
    requires forall k :: 0 <= k < |bs| ==> es[k] == Materialize(bs[k], base + k, blur, sessionActive)
    ensures Snapshot(es) == Canonical(bs)
  {
    assert forall k :: 0 <= k < |bs| ==> Snapshot(es)[k] == Canonical(bs)[k];
  }

  function Repeat(s: seq<Shape>, n: nat): seq<seq<Shape>> {
    seq(n, _ => s)
  }

  class Page {
    var elements: seq<Element>
    var nextNode: nat
    var sessionActive: bool
    var drawing: bool
    var mode: Tool
    var startX: int
    var startY: int
    var current: Option<InProgress>
    var points: seq<Point>
    var blurIntensity: int
    var enabled: bool
    // the config overlay and toolbar, present together
    var overlay: bool
    var overlayPointer: bool
    var interaction: Interaction
    var indicator: bool
    // the shared svg definitions container and its clip paths by element id
    var defs: bool
    var clipDefs: map<string, string>
    // the lists passed to SAVE_BLURS, oldest first
    var outbox: seq<seq<Shape>>
    var drags: seq<Drag>
    // document.body.dataset.isPeeking
    var peeking: bool

    ghost predicate Valid()
      reads this`drawing, this`current, this`elements, this`nextNode
    {
      && (drawing <==> current.Some?)
      && (forall i :: 0 <= i < |elements| ==> elements[i].node < nextNode)
      && (forall i, j :: 0 <= i < j < |elements| ==> elements[i].node != elements[j].node)
    }

    /** The closure state when the script is first injected. */
    constructor ()
      ensures Valid()
      ensures elements == [] && !sessionActive && !drawing && mode == Rect
      ensures current == None && points == [] && blurIntensity == DefaultIntensity && enabled
      ensures !overlay && !indicator && !defs && clipDefs == map[] && outbox == [] && drags == [] && !peeking
    {
      elements, nextNode := [], 0;
      sessionActive, drawing, mode := false, false, Rect;
      startX, startY := 0, 0;
      current, points := None, [];
      blurIntensity, enabled := DefaultIntensity, true;
      overlay, overlayPointer, interaction, indicator := false, false, Draw, false;
      defs, clipDefs := false, map[];
      outbox, drags, peeking := [], [], false;
    }

    /** Sets every element's pointer-events style. */
    method SetAllPointer(p: PointerEvents)
      requires Valid()
      modifies this`elements
      ensures Valid()
      ensures elements == WithPointer(old(elements), p)
    {
      var es := elements;
      var i := 0;
      while i < |es|
        invariant 0 <= i <= |es| == |old(elements)|
        invariant forall k :: 0 <= k < i ==> es[k] == old(elements)[k].(pointer := p)
        invariant forall k :: i <= k < |es| ==> es[k] == old(elements)[k]
      {
        es := es[i := es[i].(pointer := p)];
        i := i + 1;
      }
      elements := es;
    }

    /** In "draw" only the config overlay takes pointer events; otherwise
        only the blur elements do. */
    method SetInteractionState(state: Interaction)
      requires Valid() && overlay
      modifies this`elements, this`overlayPointer, this`interaction
      ensures Valid()
      ensures interaction == state && overlayPointer == (state == Draw)
      ensures elements == WithPointer(old(elements), if state == Draw then Off else Auto)
    {
      interaction := state;
      if state == Draw {
        overlayPointer := true;
        SetAllPointer(Off);
      } else {
        overlayPointer := false;
        SetAllPointer(Auto);
      }
    }

    /** A toolbar button: the eraser selects drag/erase, every other tool
        selects drawing; the shapes themselves are untouched. */
    method SetActiveTool(t: Tool)
      requires Valid() && overlay
      modifies this`mode, this`elements, this`overlayPointer, this`interaction
      ensures Valid() && mode == t
      ensures interaction == (if t == Eraser then DragErase else Draw)
      ensures elements == WithPointer(old(elements), if t == Eraser then Auto else Off)
      ensures t != Eraser ==> overlayPointer && forall k :: 0 <= k < |elements| ==> elements[k].pointer == Off
      ensures t == Eraser ==> !overlayPointer && forall k :: 0 <= k < |elements| ==> elements[k].pointer == Auto
      ensures Snapshot(elements) == Snapshot(old(elements))
    {
      mode := t;
      SetInteractionState(if t == Eraser then DragErase else Draw);
    }

    /** Opens the authoring UI with the rectangle tool, unless it is open. */
    method StartBlurSession()
      requires Valid()
      modifies this`sessionActive, this`overlay, this`mode, this`elements, this`overlayPointer, this`interaction, this`indicator
      ensures Valid()
      ensures old(overlay) ==> unchanged(this)
      ensures !old(overlay) ==>
        && sessionActive && overlay && mode == Rect && interaction == Draw && overlayPointer && indicator
        && elements == WithPointer(old(elements), Off)
    {
      if overlay {
        return;
      }
      sessionActive := true;
      overlay := true;
      SetActiveTool(Rect);
      indicator := true;
    }

    /** Closes the authoring UI; the elements stop taking pointer events. */
    method DestroyConfigUI()
      requires Valid()
      modifies this`sessionActive, this`elements, this`overlay
      ensures Valid() && !sessionActive && !overlay
      ensures elements == WithPointer(old(elements), Off)
    {
      sessionActive := false;
      SetAllPointer(Off);
      overlay := false;
    }

    /** The Finish button: close the UI, then save every shape. */
    method Finish()
      requires Valid()
      modifies this`sessionActive, this`elements, this`overlay, this`outbox
      ensures Valid() && !sessionActive && !overlay
      ensures elements == WithPointer(old(elements), Off)
      ensures outbox == old(outbox) + [Snapshot(old(elements))]
    {
      DestroyConfigUI();
      assert Snapshot(elements) == Snapshot(old(elements));
      SaveAllBlurs();
    }

    /** Writes `d` into the one clip path keyed by the element's id,
        creating the definitions container and that entry if missing. */
    method ApplyClipPath(id: string, d: string)
      modifies this`defs, this`clipDefs
      ensures defs
      ensures clipDefs == old(clipDefs)[ClipKey(id) := d]
      ensures |clipDefs.Keys| <= |old(clipDefs).Keys| + 1
    {
      defs := true;
      clipDefs := clipDefs[ClipKey(id) := d];
    }

    /** Builds (but does not insert) the element for a record. */
    method CreateBlurElement(s: Shape) returns (e: Element)
      modifies this`nextNode, this`defs, this`clipDefs
      ensures nextNode == old(nextNode) + 1
      ensures e == Materialize(s, old(nextNode), blurIntensity, sessionActive)
      ensures s.kind == Custom && s.path != "" ==> defs && clipDefs == old(clipDefs)[ClipKey(s.id) := s.path]
      ensures !(s.kind == Custom && s.path != "") ==> defs == old(defs) && clipDefs == old(clipDefs)
    {
      e := Materialize(s, nextNode, blurIntensity, sessionActive);
      nextNode := nextNode + 1;
      if s.kind == Custom && s.path != "" {
        ApplyClipPath(s.id, s.path);
      }
    }

    /** Pointer down on the overlay: a left button with a drawing tool
        starts exactly one new zero-sized shape at the pointer. */
    method MouseDown(button: int, px: int, py: int, id: string)
      requires Valid() && overlay && overlayPointer
      modifies this`drawing, this`startX, this`startY, this`points, this`current, this`elements, this`nextNode, this`defs, this`clipDefs
      ensures Valid()
      ensures button != 0 || mode == Eraser ==> unchanged(this)
      ensures button == 0 && mode != Eraser ==>
        && drawing && startX == px && startY == py
        && elements == old(elements) + [Materialize(Shape(id, mode, px, py, 0, 0, ""), old(nextNode), blurIntensity, sessionActive)]
        && elements[|elements| - 1].shape == Shape(id, mode, px, py, 0, 0, "")
        && current == Some(InProgress(old(nextNode), id))
        && points == (if mode == Custom then [Point(px, py)] else old(points))
        && defs == old(defs) && clipDefs == old(clipDefs)
    {
      if button != 0 || mode == Eraser {
        return;
      }
      drawing := true;
      startX, startY := px, py;
      var s := Shape(id, mode, px, py, 0, 0, "");
      if mode == Custom {
        points := [Point(px, py)];
      }
      current := Some(InProgress(nextNode, id));
      var e := CreateBlurElement(s);
      elements := elements + [e];
    }

    /** Pointer move on the overlay while drawing: a rectangle or circle
        spans the anchor and the pointer; a custom stroke gains the point,
        is boxed around all its points and gets a path relative to that box,
        also written to its clip path. */
    method MouseMove(px: int, py: int)
      requires Valid() && overlay && overlayPointer
      modifies this`elements, this`points, this`defs, this`clipDefs
      ensures Valid()
      ensures !drawing || mode == Eraser ==> unchanged(this)
      ensures drawing && (mode == Rect || mode == Circle) ==>
        && elements == Reshaped(old(elements), current.value.node, DragBox(startX, startY, px, py))
        && points == old(points) && defs == old(defs) && clipDefs == old(clipDefs)
      ensures drawing && mode == Custom ==>
        && points == old(points) + [Point(px, py)]
        && elements == WithPath(Reshaped(old(elements), current.value.node, BoundingBox(points)), current.value.node, FreeformPath(points))
        && defs && clipDefs == old(clipDefs)[ClipKey(current.value.id) := FreeformPath(points)]
    {
      if !drawing {
        return;
      }
      if mode == Rect || mode == Circle {
        PlaceCurrent(DragBox(startX, startY, px, py));
      } else if mode == Custom {
        StrokeTo(px, py);
      }
    }

    /** Places the element being drawn on box `b`. */
    method PlaceCurrent(b: Box)
      requires Valid() && current.Some?
      modifies this`elements
      ensures Valid()
      ensures elements == Reshaped(old(elements), current.value.node, b)
    {
      elements := Reshaped(elements, current.value.node, b);
    }

    /** Extends the free-form stroke being drawn to the pointer and writes
        its path to the element's clip definition. */
    method StrokeTo(px: int, py: int)
      requires Valid() && current.Some?
      modifies this`elements, this`points, this`defs, this`clipDefs
      ensures Valid()
      ensures points == old(points) + [Point(px, py)]
      ensures elements == WithPath(Reshaped(old(elements), current.value.node, BoundingBox(points)), current.value.node, FreeformPath(points))
      ensures defs && clipDefs == old(clipDefs)[ClipKey(current.value.id) := FreeformPath(points)]
    {
      ExtendStroke(px, py);
      ApplyClipPath(current.value.id, FreeformPath(points));
    }

    /** Adds a point to the free-form stroke being drawn, boxes the element
        around the whole stroke and gives it the stroke's path. */
    method ExtendStroke(px: int, py: int)
      requires Valid() && current.Some?
      modifies this`elements, this`points
      ensures Valid()
      ensures points == old(points) + [Point(px, py)]
      ensures elements == WithPath(Reshaped(old(elements), current.value.node, BoundingBox(points)), current.value.node, FreeformPath(points))
    {
      var cur := current.value;
      points := points + [Point(px, py)];
      elements := Reshaped(elements, cur.node, BoundingBox(points));
      elements := WithPath(elements, cur.node, FreeformPath(points));
    }

    /** Pointer up on the overlay: ends the drawing, keeps the drawn element
        whatever its size, and switches to drag/erase. */
    method MouseUp()
      requires Valid() && overlay && overlayPointer
      modifies this`drawing, this`current, this`points, this`elements, this`overlayPointer, this`interaction
      ensures Valid()
      ensures !old(drawing) ==> unchanged(this)
      ensures old(drawing) ==>
        && !drawing && current == None && points == []
        && interaction == DragErase && !overlayPointer
        && elements == WithPointer(old(elements), Auto)
        && Snapshot(elements) == Snapshot(old(elements))
    {
      if !drawing {
        return;
      }
      drawing := false;
      current := None;
      points := [];
      SetInteractionState(DragErase);
      assert Snapshot(elements) == Snapshot(old(elements));
    }

    /** Hands the records of all elements, in document order, to SAVE_BLURS. */
    method SaveAllBlurs()
      modifies this`outbox
      ensures outbox == old(outbox) + [Snapshot(elements)]
    {
      var blurs: seq<Shape> := [];
      var i := 0;
      while i < |elements|
        invariant 0 <= i <= |elements|
        invariant |blurs| == i
        invariant forall k :: 0 <= k < i ==> blurs[k] == Recorded(elements[k])
      {
        blurs := blurs + [Recorded(elements[i])];
        i := i + 1;
      }
      assert blurs == Snapshot(elements);
      outbox := outbox + [blurs];
    }

    /** A click on element i erases it, and saves once, only while the
        session is active and the eraser is selected. */
    method EraseClick(i: nat)
      requires Valid() && i < |elements| && elements[i].pointer != Off && elements[i].shown
      modifies this`elements, this`outbox
      ensures Valid()
      ensures !(sessionActive && mode == Eraser) ==> unchanged(this)
      ensures sessionActive && mode == Eraser ==>
        && elements == old(elements[..i] + elements[i + 1..])
        && outbox == old(outbox) + [Snapshot(elements)]
    {
      if sessionActive && mode == Eraser {
        elements := elements[..i] + elements[i + 1..];
        SaveAllBlurs();
      }
    }

    /** A left-button press on element i outside eraser mode registers a
        drag that remembers the pointer's offset from the element's corner. */
    method DragStart(i: nat, button: int, px: int, py: int)
      requires Valid() && i < |elements| && elements[i].pointer != Off && elements[i].shown
      modifies this`drags
      ensures !sessionActive || mode == Eraser || button != 0 ==> unchanged(this)
      ensures sessionActive && mode != Eraser && button == 0 ==>
        drags == old(drags) + [Drag(elements[i].node, px - elements[i].shape.x, py - elements[i].shape.y)]
    {
      if !sessionActive || mode == Eraser || button != 0 {
        return;
      }
      var e := elements[i];
      drags := drags + [Drag(e.node, px - e.shape.x, py - e.shape.y)];
    }

    /** A document pointer move: every registered drag listener runs. */
    method DragMove(px: int, py: int)
      requires Valid()
      modifies this`elements
      ensures Valid()
      ensures elements == Dragged(old(elements), drags, px, py)
    {
      var k := 0;
      while k < |drags|
        invariant 0 <= k <= |drags|
        invariant Valid()
        invariant Dragged(elements, drags[k..], px, py) == Dragged(old(elements), drags, px, py)
      {
        var d := drags[k];
        assert drags[k..][1..] == drags[k + 1..];
        elements := Moved(elements, d.node, px - d.offsetX, py - d.offsetY);
        k := k + 1;
      }
    }

    /** A document pointer up: every registered drag ends and saves once. */
    method DragEnd()
      modifies this`drags, this`outbox
      ensures drags == []
      ensures outbox == old(outbox) + Repeat(Snapshot(elements), |old(drags)|)
    {
      var n := |drags|;
      var k := 0;
      while k < n
        invariant 0 <= k <= n
        invariant outbox == old(outbox) + Repeat(Snapshot(elements), k)
      {
        SaveAllBlurs();
        assert Repeat(Snapshot(elements), k + 1) == Repeat(Snapshot(elements), k) + [Snapshot(elements)];
        k := k + 1;
      }
      drags := [];
    }

    /** Removes every element and the indicator, keeping the clip-path
        definitions; saves one empty list when asked to. */
    method ClearAllBlurs(shouldSave: bool)
      requires Valid()
      modifies this`elements, this`indicator, this`outbox
      ensures Valid()
      ensures elements == [] && !indicator
      ensures outbox == old(outbox) + (if shouldSave then [[]] else [])
    {
      while |elements| > 0
        invariant Valid()
        modifies this`elements
        decreases |elements|
      {
        elements := elements[1..];
      }
      indicator := false;
      if shouldSave {
        outbox := outbox + [[]];
      }
    }

    /** Replaces the elements, without saving, by one element per record in
        list order, restoring each custom shape's clip path. */
    method ApplyAllBlurs(blurs: seq<Shape>)
      requires Valid()
      modifies this`elements, this`indicator, this`outbox, this`nextNode, this`defs, this`clipDefs
      ensures Valid()
      ensures |elements| == |blurs| && nextNode == old(nextNode) + |blurs|
      ensures forall k :: 0 <= k < |blurs| ==> elements[k] == Materialize(blurs[k], old(nextNode) + k, blurIntensity, sessionActive)
      ensures Snapshot(elements) == Canonical(blurs)
      ensures outbox == old(outbox)
      ensures indicator == (|blurs| > 0)
      ensures defs == (old(defs) || |blurs| > 0)
      ensures clipDefs == WithClips(old(clipDefs), blurs)
    {
      ClearAllBlurs(false);
      if |blurs| > 0 {
        defs := true;
        AppendAll(blurs);
        indicator := true;
      }
      MaterializedSnapshot(elements, blurs, old(nextNode), blurIntensity, sessionActive);
    }

    /** Appends one new element per record, in list order, to an empty
        page. */
    method AppendAll(blurs: seq<Shape>)
      requires Valid() && elements == [] && defs
      modifies this`elements, this`nextNode, this`defs, this`clipDefs
      ensures Valid() && defs
      ensures |elements| == |blurs| && nextNode == old(nextNode) + |blurs|
      ensures forall k :: 0 <= k < |blurs| ==> elements[k] == Materialize(blurs[k], old(nextNode) + k, blurIntensity, sessionActive)
      ensures clipDefs == WithClips(old(clipDefs), blurs)
    {
      var i := 0;
      while i < |blurs|
        invariant 0 <= i <= |blurs|
        invariant |elements| == i && nextNode == old(nextNode) + i
        invariant forall k :: 0 <= k < i ==> elements[k] == Materialize(blurs[k], old(nextNode) + k, blurIntensity, sessionActive)
        invariant Valid() && defs
        invariant clipDefs == WithClips(old(clipDefs), blurs[..i])
      {
        var e := CreateBlurElement(blurs[i]);
        assert blurs[..i + 1][..i] == blurs[..i];
        elements := elements + [e];
        i := i + 1;
      }
      assert blurs[..i] == blurs;
    }

    /** Sets the shared intensity and re-applies it to every element,
        adding and removing none. */
    method UpdateBlurIntensity(n: int)
      requires Valid()
      modifies this`blurIntensity, this`elements
      ensures Valid()
      ensures blurIntensity == n
      ensures elements == WithBlur(old(elements), n)
      ensures Snapshot(elements) == Snapshot(old(elements))
    {
      blurIntensity := n;
      var es := elements;
      var i := 0;
      while i < |es|
        invariant 0 <= i <= |es| == |old(elements)|
        invariant forall k :: 0 <= k < i ==> es[k] == old(elements)[k].(blur := n)
        invariant forall k :: i <= k < |es| ==> es[k] == old(elements)[k]
      {
        es := es[i := es[i].(blur := n)];
        i := i + 1;
      }
      elements := es;
      assert Snapshot(elements) == Snapshot(old(elements));
    }

    /** The content script's message switch. While disabled only SET_ENABLED
        is handled, and no reply is sent for anything else. */
    method HandleMessage(msg: ContentMessage) returns (acked: bool)
      requires Valid()
      modifies this`sessionActive, this`overlay, this`mode, this`overlayPointer, this`interaction, this`indicator
      modifies this`elements, this`outbox, this`nextNode, this`defs, this`clipDefs, this`blurIntensity, this`enabled
      ensures Valid()
      ensures acked <==> old(enabled) || msg.SetEnabled?
      ensures !acked || msg.OtherMessage? || (msg.StartSession? && old(overlay)) ==> unchanged(this)
      ensures acked && msg.StartSession? && !old(overlay) ==>
        && sessionActive && overlay && mode == Rect && interaction == Draw && overlayPointer && indicator
        && elements == WithPointer(old(elements), Off)
        && Snapshot(elements) == Snapshot(old(elements))
        && unchanged(this`outbox, this`nextNode, this`defs, this`clipDefs, this`blurIntensity, this`enabled)
      ensures acked && msg.ApplyBlurs? ==>
        && |elements| == |msg.blurs| && nextNode == old(nextNode) + |msg.blurs|
        && (forall k :: 0 <= k < |msg.blurs| ==>
              elements[k] == Materialize(msg.blurs[k], old(nextNode) + k, blurIntensity, sessionActive))
        && Snapshot(elements) == Canonical(msg.blurs)
        && indicator == (|msg.blurs| > 0) && defs == (old(defs) || |msg.blurs| > 0)
        && clipDefs == WithClips(old(clipDefs), msg.blurs)
        && unchanged(this`sessionActive, this`overlay, this`mode, this`overlayPointer, this`interaction)
        && unchanged(this`outbox, this`blurIntensity, this`enabled)
      ensures acked && msg.ClearAllBlurs? ==>
        && elements == [] && !indicator && outbox == old(outbox) + [[]]
        && unchanged(this`sessionActive, this`overlay, this`mode, this`overlayPointer, this`interaction)
        && unchanged(this`nextNode, this`defs, this`clipDefs, this`blurIntensity, this`enabled)
      ensures acked && msg.UpdateIntensity? ==>
        && blurIntensity == msg.intensity && elements == WithBlur(old(elements), msg.intensity)
        && Snapshot(elements) == Snapshot(old(elements))
        && unchanged(this`sessionActive, this`overlay, this`mode, this`overlayPointer, this`interaction, this`indicator)
        && unchanged(this`outbox, this`nextNode, this`defs, this`clipDefs, this`enabled)
      ensures msg.SetEnabled? && msg.isEnabled ==>
        && enabled
        && unchanged(this`sessionActive, this`overlay, this`mode, this`overlayPointer, this`interaction, this`indicator)
        && unchanged(this`elements, this`outbox, this`nextNode, this`defs, this`clipDefs, this`blurIntensity)
      ensures msg.SetEnabled? && !msg.isEnabled ==>
        && !enabled && elements == [] && !indicator
        && unchanged(this`sessionActive, this`overlay, this`mode, this`overlayPointer, this`interaction)
        && unchanged(this`outbox, this`nextNode, this`defs, this`clipDefs, this`blurIntensity)
    {
      if !enabled && !msg.SetEnabled? {
        return false;
      }
      match msg {
        case StartSession =>
          StartBlurSession();
          assert Snapshot(elements) == Snapshot(old(elements));
        case ApplyBlurs(blurs) =>
          ApplyAllBlurs(blurs);
        case ClearAllBlurs =>
          ClearAllBlurs(true);
        case UpdateIntensity(n) =>
          UpdateBlurIntensity(n);
        case SetEnabled(on) =>
          enabled := on;
          if !on {
            ClearAllBlurs(false);
            assert outbox == old(outbox);
          }
        case OtherMessage =>
      }
      acked := true;
    }

    /** The load-time step: read the settings with their defaults and, when
        enabled, apply the tab's saved list if it is non-empty. `reply` is
        GET_BLURS' answer, None when there was none. */
    method InitialLoad(storedEnabled: Option<bool>, storedIntensity: Option<StoredIntensity>, reply: Option<seq<Shape>>)
      requires Valid()
      modifies this`enabled, this`blurIntensity, this`elements, this`indicator, this`outbox, this`nextNode, this`defs, this`clipDefs
      ensures Valid()
      ensures enabled == EnabledSetting(storedEnabled)
      ensures blurIntensity == IntensitySetting(storedIntensity)
      ensures outbox == old(outbox)
      ensures enabled && reply.Some? && |reply.value| > 0 ==>
        && |elements| == |reply.value| && nextNode == old(nextNode) + |reply.value|
        && (forall k :: 0 <= k < |reply.value| ==>
              elements[k] == Materialize(reply.value[k], old(nextNode) + k, blurIntensity, sessionActive))
        && Snapshot(elements) == Canonical(reply.value)
        && indicator && defs && clipDefs == WithClips(old(clipDefs), reply.value)
      ensures !(enabled && reply.Some? && |reply.value| > 0) ==>
        unchanged(this`elements, this`indicator, this`nextNode, this`defs, this`clipDefs)
    {
      enabled := EnabledSetting(storedEnabled);
      blurIntensity := IntensitySetting(storedIntensity);
      if enabled {
        var blurs := if reply.Some? then reply.value else [];
        if |blurs| > 0 {
          ApplyAllBlurs(blurs);
        }
      }
    }
  }
}

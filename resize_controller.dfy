/** The resizable box around each widget. A press on the resize handle
    captures the pointer and the box's live size and attaches four document
    listeners (move and end, for mouse and touch); every move recomputes the
    size from that capture, shows it at once and re-arms a debounced commit
    with it; the end of the gesture stops resizing, forces the waiting
    commit through and detaches the listeners. While resizing, the page body
    neither scrolls nor reacts to touch gestures. */
module ResizeController {
  import opened Text
  import opened WidgetRecords
  import Debounce

  const MinWidth: real := 100.0
  const MinHeight: real := 60.0

  /** What one `handleResizeStart` captured: the start pointer and the live
      size at that moment. Its four listeners share it. */
  datatype Gesture = Gesture(startX: real, startY: real, startWidth: real, startHeight: real)

  /** The drag transform applied to the box: none (the empty string) or a
      `translate3d` by the drag offset. */
  datatype Transform = NoTransform | Translate3d(x: real, y: real)

  function Max(a: real, b: real): (r: real)
    ensures r >= a && r >= b && (r == a || r == b)
  {
    if a >= b then a else b
  }

  /** The size `onMove` computes for pointer (x, y): each axis is the start
      extent plus the pointer's offset from the start pointer, but never
      below the minimum. */
  function ResizedSize(g: Gesture, x: real, y: real): (s: Size)
    ensures s.width >= MinWidth && s.height >= MinHeight
    ensures g.startWidth + (x - g.startX) >= MinWidth ==> s.width == g.startWidth + (x - g.startX)
    ensures g.startWidth + (x - g.startX) < MinWidth ==> s.width == MinWidth
    ensures g.startHeight + (y - g.startY) >= MinHeight ==> s.height == g.startHeight + (y - g.startY)
    ensures g.startHeight + (y - g.startY) < MinHeight ==> s.height == MinHeight
  {
    Size(Max(g.startWidth + (x - g.startX), MinWidth), Max(g.startHeight + (y - g.startY), MinHeight))
  }

  /** The width ignores the vertical pointer position and the height the
      horizontal one. */
  lemma AxesIndependent(g: Gesture, x1: real, y1: real, x2: real, y2: real)
    ensures x1 == x2 ==> ResizedSize(g, x1, y1).width == ResizedSize(g, x2, y2).width
    ensures y1 == y2 ==> ResizedSize(g, x1, y1).height == ResizedSize(g, x2, y2).height
  {
  }

  /** Moves are measured from the capture, not from the previous move:
      coming back to the start pointer gives back the start size (when it
      met the minimums). */
  lemma BackToStart(g: Gesture)
    requires g.startWidth >= MinWidth && g.startHeight >= MinHeight
    ensures ResizedSize(g, g.startX, g.startY) == Size(g.startWidth, g.startHeight)
  {
  }

  /** A 200 by 150 box dragged 500 px up and left stops at 100 by 60. */
  lemma ShrinkToMinimum(x: real, y: real)
    ensures ResizedSize(Gesture(x, y, 200.0, 150.0), x - 500.0, y - 500.0) == Size(100.0, 60.0)
  {
  }

  /** The body styles the scroll-lock effect sets for a resizing flag. */
  predicate BodyStyleFor(resizing: bool, overflow: string, touchAction: string) {
    if resizing then overflow == "hidden" && touchAction == "none"
    else overflow == "" && touchAction == ""
  }

  class ResizeBox {
    /** `isResizing` */
    var isResizing: bool
    /** `localSize`, the size the box is drawn with. */
    var localSize: Size
    /** The listener sets on `document`, one per resize start, in the order
        they were attached. */
    var listeners: seq<Gesture>
    /** `debouncedUpdateSize`'s waiting call. */
    var pending: Debounce.Slot<Size>
    /** The sizes handed to `onUpdateSize`, oldest first. */
    var committed: seq<Size>
    /** `document.body.style.overflow` and `.touchAction`. */
    var bodyOverflow: string
    var bodyTouchAction: string
    var mounted: bool

    /** While mounted, the body styles follow the resizing flag. The box is
        resizing exactly while a listener set is attached, a waiting commit
        only exists then, and it always carries the size on screen. */
    ghost predicate Valid()
      reads this
    {
      && (mounted ==> BodyStyleFor(isResizing, bodyOverflow, bodyTouchAction))
      && (!mounted ==> bodyOverflow == "" && bodyTouchAction == "")
      && (isResizing <==> listeners != [])
      && (pending.Pending? ==> listeners != [] && pending.value == localSize)
    }

    /** Mounting with the record's size: not resizing, nothing attached,
        nothing waiting, and the effect clears the body styles. */
    constructor (size: Size)
      ensures Valid()
      ensures !isResizing && localSize == size && listeners == []
      ensures pending == Debounce.Idle && committed == [] && mounted
    {
      isResizing := false;
      localSize := size;
      listeners := [];
      pending := Debounce.Idle;
      committed := [];
      bodyOverflow := "";
      bodyTouchAction := "";
      mounted := true;
    }

    /** The scroll-lock effect, run after a render that changed the flag. */
    method SyncBodyStyle()
      modifies this
      ensures BodyStyleFor(isResizing, bodyOverflow, bodyTouchAction)
      ensures isResizing == old(isResizing) && localSize == old(localSize) && listeners == old(listeners)
      ensures pending == old(pending) && committed == old(committed) && mounted == old(mounted)
    {
      if isResizing {
        bodyOverflow := "hidden";
        bodyTouchAction := "none";
      } else {
        bodyOverflow := "";
        bodyTouchAction := "";
      }
    }

    /** `handleResizeStart` at pointer (x, y): resizing starts and a listener
        set capturing the pointer and the live size is attached. */
    method ResizeStart(x: real, y: real)
      requires Valid() && mounted
      modifies this
      ensures Valid()
      ensures isResizing
      ensures listeners == old(listeners) + [Gesture(x, y, old(localSize).width, old(localSize).height)]
      ensures bodyOverflow == "hidden" && bodyTouchAction == "none"
      ensures localSize == old(localSize) && pending == old(pending) && committed == old(committed)
      ensures mounted
    {
      var g := Gesture(x, y, localSize.width, localSize.height);
      isResizing := true;
      listeners := listeners + [g];
      SyncBodyStyle();
    }

    /** A pointer move to (x, y) reaches every attached `onMove` in turn; each
        sets the live size from its own capture and re-arms the debounced
        commit with the same size, so the last attached one decides. With no
        listener attached nothing happens. */
    method Move(x: real, y: real)
      requires Valid()
      modifies this
      ensures Valid()
      ensures old(listeners) == [] ==> localSize == old(localSize) && pending == old(pending)
      ensures old(listeners) != [] ==>
                localSize == ResizedSize(old(listeners)[|old(listeners)| - 1], x, y) &&
                pending == Debounce.Pending(localSize)
      ensures isResizing == old(isResizing) && listeners == old(listeners) && committed == old(committed)
      ensures bodyOverflow == old(bodyOverflow) && bodyTouchAction == old(bodyTouchAction) && mounted == old(mounted)
    {
      var i := 0;
      while i < |listeners|
        invariant 0 <= i <= |listeners|
        invariant i == 0 ==> localSize == old(localSize) && pending == old(pending)
        invariant i > 0 ==> localSize == ResizedSize(listeners[i - 1], x, y) && pending == Debounce.Pending(localSize)
        invariant isResizing == old(isResizing) && listeners == old(listeners) && committed == old(committed)
        invariant bodyOverflow == old(bodyOverflow) && bodyTouchAction == old(bodyTouchAction) && mounted == old(mounted)
      {
        var size := ResizedSize(listeners[i], x, y);
        localSize := size;
        pending := Debounce.Schedule(pending, size);
        i := i + 1;
      }
    }

    /** `debouncedUpdateSize.flush()`: a waiting commit is made now. */
    method Flush()
      modifies this
      ensures pending == Debounce.Idle
      ensures committed == old(committed) + (if old(pending).Pending? then [old(pending).value] else [])
      ensures isResizing == old(isResizing) && localSize == old(localSize) && listeners == old(listeners)
      ensures bodyOverflow == old(bodyOverflow) && bodyTouchAction == old(bodyTouchAction) && mounted == old(mounted)
    {
      var (slot, out) := Debounce.Fire(pending);
      pending := slot;
      if out.Some? {
        committed := committed + [out.value];
      }
    }

    /** The release of the pointer reaches every attached `onEnd` in turn;
        each stops resizing, flushes the debounced commit and detaches its
        own four listeners. Afterwards nothing is attached or waiting, the
        waiting size (if any) was committed exactly once, and the body
        styles are cleared. With no listener attached nothing happens. */
    method End()
      requires Valid()
      modifies this
      ensures Valid()
      ensures old(listeners) == [] ==> isResizing == old(isResizing) && committed == old(committed) && pending == old(pending)
      ensures old(listeners) != [] ==> !isResizing && pending == Debounce.Idle
      ensures committed == old(committed) + (if old(pending).Pending? then [old(pending).value] else [])
      ensures listeners == [] && localSize == old(localSize) && mounted == old(mounted)
      ensures mounted && old(listeners) != [] ==> bodyOverflow == "" && bodyTouchAction == ""
    {
      if listeners == [] {
        return;
      }
      while listeners != []
        invariant pending.Pending? ==> pending == old(pending)
        invariant committed == old(committed) + (if old(pending).Pending? && pending.Idle? then [old(pending).value] else [])
        invariant listeners != old(listeners) ==> !isResizing && pending.Idle?
        invariant old(listeners) != [] && localSize == old(localSize) && mounted == old(mounted)
        invariant bodyOverflow == old(bodyOverflow) && bodyTouchAction == old(bodyTouchAction)
        invariant |listeners| <= |old(listeners)|
        invariant listeners != old(listeners) || isResizing == old(isResizing)
        invariant listeners == old(listeners) ==> pending == old(pending)
        decreases |listeners|
      {
        isResizing := false;
        Flush();
        listeners := listeners[1..];
      }
      if mounted {
        SyncBodyStyle();
      }
    }

    /** The debounce window elapses: the waiting size is committed. */
    method DebounceElapse()
      requires Valid()
      modifies this
      ensures Valid()
      ensures pending == Debounce.Idle
      ensures committed == old(committed) + (if old(pending).Pending? then [old(pending).value] else [])
      ensures isResizing == old(isResizing) && localSize == old(localSize) && listeners == old(listeners)
      ensures bodyOverflow == old(bodyOverflow) && bodyTouchAction == old(bodyTouchAction) && mounted == old(mounted)
    {
      Flush();
    }

    /** Unmounting runs the effect's cleanup, which clears the body styles. */
    method Unmount()
      requires Valid()
      modifies this
      ensures Valid()
      ensures !mounted && bodyOverflow == "" && bodyTouchAction == ""
      ensures isResizing == old(isResizing) && localSize == old(localSize) && listeners == old(listeners)
      ensures pending == old(pending) && committed == old(committed)
    {
      bodyOverflow := "";
      bodyTouchAction := "";
      mounted := false;
    }

    /** `computedTransform`: the drag offset only when not resizing. */
    function ComputedTransform(drag: Option<(real, real)>): (t: Transform)
      reads this
      ensures isResizing ==> t == NoTransform
      ensures drag.None? ==> t == NoTransform
      ensures !isResizing && drag.Some? ==> t == Translate3d(drag.value.0, drag.value.1)
    {
      if drag.Some? && !isResizing then Translate3d(drag.value.0, drag.value.1) else NoTransform
    }
  }
}

/** The page's drag-end handler: in edit mode, the dragged record's
    percentage position is turned into pixels, the pointer delta (pixels) is
    added, the sum is turned back into percentages, and each axis is
    clamped to [0, 95] before one position update is issued. */
module DragController {
  import opened Text
  import opened WidgetRecords

  /** `Math.max(0, Math.min(v, 95))` */
  function ClampPercent(v: real): (r: real)
    ensures 0.0 <= r <= 95.0
    ensures 0.0 <= v <= 95.0 ==> r == v
    ensures v < 0.0 ==> r == 0.0
    ensures v > 95.0 ==> r == 95.0
  {
    var upper := if v < 95.0 then v else 95.0;
    if upper > 0.0 then upper else 0.0
  }

  /** One axis before clamping: percentage to pixels, plus the delta, back
      to percentage. */
  function MovedPercent(pct: real, delta: real, extent: real): (r: real)
    requires extent > 0.0
  {
    var px := pct / 100.0 * extent;
    (px + delta) / extent * 100.0
  }

  /** The round trip through pixels only shifts the percentage by the delta
      expressed as a share of the viewport. */
  lemma MovedPercentIsShift(pct: real, delta: real, extent: real)
    requires extent > 0.0
    ensures MovedPercent(pct, delta, extent) == pct + delta * 100.0 / extent
  {
    var px := pct / 100.0 * extent;
    assert px / extent == pct / 100.0;
    assert (px + delta) / extent == px / extent + delta / extent;
  }

  /** The clamped position the handler computes. */
  function DragTarget(p: Position, dx: real, dy: real, width: real, height: real): (r: Position)
    requires width > 0.0 && height > 0.0
    ensures 0.0 <= r.x <= 95.0 && 0.0 <= r.y <= 95.0
  {
    Position(ClampPercent(MovedPercent(p.x, dx, width)), ClampPercent(MovedPercent(p.y, dy, height)))
  }

  /** A target already inside [0, 95] is not clamped: the result is exactly
      the shifted position. */
  lemma DragTargetInRange(p: Position, dx: real, dy: real, width: real, height: real)
    requires width > 0.0 && height > 0.0
    ensures var x := p.x + dx * 100.0 / width;
            0.0 <= x <= 95.0 ==> DragTarget(p, dx, dy, width, height).x == x
    ensures var y := p.y + dy * 100.0 / height;
            0.0 <= y <= 95.0 ==> DragTarget(p, dx, dy, width, height).y == y
  {
    MovedPercentIsShift(p.x, dx, width);
    MovedPercentIsShift(p.y, dy, height);
  }

  /** A drag with no movement keeps a position that is already in range. */
  lemma ZeroDeltaKeepsPosition(p: Position, width: real, height: real)
    requires width > 0.0 && height > 0.0
    requires 0.0 <= p.x <= 95.0 && 0.0 <= p.y <= 95.0
    ensures DragTarget(p, 0.0, 0.0, width, height) == p
  {
    DragTargetInRange(p, 0.0, 0.0, width, height);
  }

  /** 10% of a 1000 px wide viewport moved right by 100 px lands at 20%. */
  lemma DragExample(y: real)
    requires 0.0 <= y <= 95.0
    ensures DragTarget(Position(10.0, y), 100.0, 0.0, 1000.0, 800.0) == Position(20.0, y)
  {
    DragTargetInRange(Position(10.0, y), 100.0, 0.0, 1000.0, 800.0);
  }

  /** `handleDragEnd`: the update it issues, if any, as the id and the new
      position passed to `updateWidgetPosition`. Nothing is issued outside
      edit mode, without an active item, or when no record has that id. */
  function HandleDragEnd(editMode: bool, ws: seq<Widget>, active: Option<string>,
                         dx: real, dy: real, width: real, height: real): (r: Option<(string, Position)>)
    requires width > 0.0 && height > 0.0
    ensures r.Some? <==> editMode && active.Some? && HasId(ws, active.value)
    ensures r.Some? ==> r.value.0 == active.value
    ensures r.Some? ==> 0.0 <= r.value.1.x <= 95.0 && 0.0 <= r.value.1.y <= 95.0
    ensures r.Some? ==> exists i :: 0 <= i < |ws| && ws[i].id == active.value &&
                          (forall j :: 0 <= j < i ==> ws[j].id != active.value) &&
                          r.value.1 == DragTarget(ws[i].position, dx, dy, width, height)
  {
    if !editMode then None
    else match active
      case None => None
      case Some(id) =>
        match FindById(ws, id)
        case None => None
        case Some(w) => Some((id, DragTarget(w.position, dx, dy, width, height)))
  }

  /** The collection after the issued update: only the dragged id's records
      move, and they end up inside [0, 95] on both axes; everything else,
      and the collection outside edit mode, stays as it was. */
  function ApplyDrag(editMode: bool, ws: seq<Widget>, active: Option<string>,
                     dx: real, dy: real, width: real, height: real): (r: seq<Widget>)
    requires width > 0.0 && height > 0.0
    ensures |r| == |ws|
    ensures !editMode ==> r == ws
    ensures forall i :: 0 <= i < |ws| && (active.None? || ws[i].id != active.value) ==> r[i] == ws[i]
    ensures forall i :: 0 <= i < |ws| && active.Some? && ws[i].id == active.value ==>
              r[i].id == ws[i].id && r[i].kind == ws[i].kind && r[i].size == ws[i].size && r[i].config == ws[i].config
    ensures forall i :: 0 <= i < |ws| && r[i] != ws[i] ==> 0.0 <= r[i].position.x <= 95.0 && 0.0 <= r[i].position.y <= 95.0
    ensures forall i :: 0 <= i < |ws| && editMode && active.Some? && ws[i].id == active.value ==>
              r[i].position == HandleDragEnd(editMode, ws, active, dx, dy, width, height).value.1
  {
    match HandleDragEnd(editMode, ws, active, dx, dy, width, height)
    case None =>
      ws
    case Some((id, p)) =>
      UpdateWhere(ws, id, MoveTo(p))
  }
}

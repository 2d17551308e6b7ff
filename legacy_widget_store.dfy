/** The earlier widget store hook (`useWidget`). It differs from the current
    one in three ways: the counter is recovered once, when the stored value
    is loaded, and afterwards only incremented; a new record gets fixed
    defaults instead of a registry copy; and it has its own drag handler
    that adds the raw pointer delta to the position. */
module LegacyWidgetStore {
  import opened Text
  import opened WidgetRecords
  import Debounce

  /** The record `addWidget` builds: position (50, 50), size 150 by 150, no
      configuration. */
  function DefaultWidget(id: string, kind: WidgetType): (w: Widget)
    ensures w.id == id && w.kind == kind && w.config.None?
    ensures w.position == Position(50.0, 50.0) && w.size == Size(150.0, 150.0)
  {
    Widget(id, kind, Position(50.0, 50.0), Size(150.0, 150.0), None)
  }

  function WithConfig(c: Config): Widget -> Widget {
    (w: Widget) => w.(config := Some(c))
  }

  /** The drag updater: the raw delta is added to both coordinates. */
  function Nudge(dx: real, dy: real): Widget -> Widget {
    (w: Widget) => w.(position := Position(w.position.x + dx, w.position.y + dy))
  }

  /** Ids minted from different numbers differ: since the counter of this
      store only ever rises, an id it mints is never minted again in the
      same session, even after the record carrying it was deleted. */
  lemma MintedIdsDiffer(a: nat, b: nat)
    requires a != b
    ensures MintId(a) != MintId(b)
  {
    IdNumberOfMinted(a);
    IdNumberOfMinted(b);
  }

  class LegacyWidgetStore {
    /** `widgetsData` */
    var widgets: seq<Widget>
    /** `nextWidgetId.current` */
    var nextId: nat
    /** `saveTimeout`: the collection a pending save will write. */
    var saveSlot: Debounce.Slot<seq<Widget>>
    /** The collection the last save wrote to storage, if any. */
    var lastWritten: Option<seq<Widget>>

    /** The counter bounds every id number in the collection; the latest
        collection is written or waiting to be. */
    ghost predicate Valid()
      reads this
    {
      && nextId >= MaxIdNumber(widgets)
      && (saveSlot.Pending? ==> saveSlot.value == widgets)
      && (saveSlot.Idle? ==> lastWritten == Some(widgets))
    }

    /** The mount effect: a missing or empty stored value, or one that does
        not parse, leaves the empty collection and the counter at 0; a parsed
        array becomes the collection and its largest id number the counter.
        The save effect then schedules a save of that collection. */
    constructor Load(saved: Option<string>, parse: string -> Option<seq<Widget>>)
      ensures Valid()
      ensures widgets == LoadWidgets(saved, parse)
      ensures nextId == MaxIdNumber(widgets)
      ensures saveSlot == Debounce.Pending(widgets) && lastWritten == None
    {
      var loaded := LoadWidgets(saved, parse);
      widgets := loaded;
      nextId := MaxIdNumber(loaded);
      saveSlot := Debounce.Pending(loaded);
      lastWritten := None;
    }

    /** `saveWidgets`: any waiting save is cancelled and one save of `ws` is
        scheduled; nothing else changes. */
    method SaveWidgets(ws: seq<Widget>)
      modifies this
      ensures saveSlot == Debounce.Pending(ws)
      ensures widgets == old(widgets) && nextId == old(nextId) && lastWritten == old(lastWritten)
    {
      saveSlot := Debounce.Schedule(saveSlot, ws);
    }

    /** The state setter followed by the save effect. The counter is not
        touched, so it must already bound the new collection. */
    method Commit(ws: seq<Widget>)
      requires nextId >= MaxIdNumber(ws)
      modifies this
      ensures Valid()
      ensures widgets == ws && saveSlot == Debounce.Pending(ws)
      ensures nextId == old(nextId) && lastWritten == old(lastWritten)
    {
      widgets := ws;
      SaveWidgets(ws);
    }

    /** The save timer fires: the scheduled collection is written. */
    method FireSaveTimer()
      requires Valid()
      modifies this
      ensures Valid()
      ensures widgets == old(widgets) && nextId == old(nextId)
      ensures saveSlot == Debounce.Idle
      ensures lastWritten == if old(saveSlot).Pending? then Some(old(widgets)) else old(lastWritten)
    {
      var (slot, out) := Debounce.Fire(saveSlot);
      saveSlot := slot;
      if out.Some? {
        lastWritten := out;
      }
    }

    /** `addWidget(type)`: the counter is bumped and a default record with
        id `widget-<n>` is appended. The new id is used by no record in the
        collection. Every other method keeps the counter, so the number is
        above every number minted before in the session and, by
        `MintedIdsDiffer`, so is the id. The appended record is handed back
        so callers can name it. */
    method AddWidget(kind: WidgetType) returns (added: Widget)
      requires Valid()
      modifies this
      ensures Valid()
      ensures nextId == old(nextId) + 1
      ensures added == DefaultWidget(MintId(nextId), kind)
      ensures widgets == old(widgets) + [added]
      ensures !HasId(old(widgets), added.id)
      ensures saveSlot == Debounce.Pending(widgets) && lastWritten == old(lastWritten)
    {
      var n := nextId + 1;
      added := DefaultWidget(MintId(n), kind);
      AppendMinted(widgets, added, n);
      nextId := n;
      Commit(widgets + [added]);
    }

    /** Applies an id-keeping updater to the records with that id. */
    method UpdateWhereId(id: string, f: Widget -> Widget)
      requires Valid()
      requires forall w :: f(w).id == w.id
      modifies this
      ensures Valid()
      ensures widgets == UpdateWhere(old(widgets), id, f)
      ensures nextId == old(nextId)
      ensures saveSlot == Debounce.Pending(widgets) && lastWritten == old(lastWritten)
    {
      UpdateKeepsMax(widgets, id, f);
      Commit(UpdateWhere(widgets, id, f));
    }

    /** `updateWidgetPosition`: only `position` of the matching records changes. */
    method UpdateWidgetPosition(id: string, p: Position)
      requires Valid()
      modifies this
      ensures Valid()
      ensures |widgets| == |old(widgets)| && nextId == old(nextId)
      ensures forall i :: 0 <= i < |widgets| ==>
                widgets[i] == if old(widgets)[i].id == id then old(widgets)[i].(position := p) else old(widgets)[i]
      ensures saveSlot == Debounce.Pending(widgets) && lastWritten == old(lastWritten)
    {
      UpdateWhereId(id, MoveTo(p));
    }

    /** `updateWidgetSize`: only `size` of the matching records changes. */
    method UpdateWidgetSize(id: string, s: Size)
      requires Valid()
      modifies this
      ensures Valid()
      ensures |widgets| == |old(widgets)| && nextId == old(nextId)
      ensures forall i :: 0 <= i < |widgets| ==>
                widgets[i] == if old(widgets)[i].id == id then old(widgets)[i].(size := s) else old(widgets)[i]
      ensures saveSlot == Debounce.Pending(widgets) && lastWritten == old(lastWritten)
    {
      UpdateWhereId(id, ResizeTo(s));
    }

    /** `updateWidgetConfig`: only `config` of the matching records changes. */
    method UpdateWidgetConfig(id: string, c: Config)
      requires Valid()
      modifies this
      ensures Valid()
      ensures |widgets| == |old(widgets)| && nextId == old(nextId)
      ensures forall i :: 0 <= i < |widgets| ==>
                widgets[i] == if old(widgets)[i].id == id then old(widgets)[i].(config := Some(c)) else old(widgets)[i]
      ensures saveSlot == Debounce.Pending(widgets) && lastWritten == old(lastWritten)
    {
      UpdateWhereId(id, WithConfig(c));
    }

    /** `deleteWidget`: a filter on the id; the counter is kept. */
    method DeleteWidget(id: string)
      requires Valid()
      modifies this
      ensures Valid()
      ensures widgets == RemoveId(old(widgets), id) && nextId == old(nextId)
      ensures !HasId(old(widgets), id) ==> widgets == old(widgets)
      ensures saveSlot == Debounce.Pending(widgets) && lastWritten == old(lastWritten)
    {
      if !HasId(widgets, id) {
        RemoveAbsent(widgets, id);
      }
      MaxIdNumberRemove(widgets, id);
      Commit(RemoveId(widgets, id));
    }

    /** `getWidgetById`: the first record with that id, or null. */
    function GetWidgetById(id: string): (r: Option<Widget>)
      reads this
      ensures r.None? <==> !HasId(widgets, id)
      ensures r.Some? ==> exists i :: 0 <= i < |widgets| && widgets[i] == r.value && r.value.id == id &&
                                      forall j :: 0 <= j < i ==> widgets[j].id != id
    {
      FindById(widgets, id)
    }

    /** `handleDragEnd`: the dragged record's coordinates move by the raw
        delta, without any clamping; every other record is unchanged. */
    method HandleDragEnd(id: string, dx: real, dy: real)
      requires Valid()
      modifies this
      ensures Valid()
      ensures |widgets| == |old(widgets)| && nextId == old(nextId)
      ensures forall i :: 0 <= i < |widgets| && old(widgets)[i].id == id ==>
                widgets[i] == old(widgets)[i].(position := Position(old(widgets)[i].position.x + dx, old(widgets)[i].position.y + dy))
      ensures forall i :: 0 <= i < |widgets| && old(widgets)[i].id != id ==> widgets[i] == old(widgets)[i]
      ensures saveSlot == Debounce.Pending(widgets) && lastWritten == old(lastWritten)
    {
      UpdateWhereId(id, Nudge(dx, dy));
    }
  }
}

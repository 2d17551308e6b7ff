/** The current widget store hook (`use-widget`): the collection held in
    React state, the id counter ref, and the save timer ref. Every change
    replaces the collection and then runs the hook's two effects: the
    counter is recovered from the new collection when it is not empty, and
    any waiting save is cancelled and a save of the new collection is
    scheduled. */
module WidgetStore {
  import opened Text
  import opened WidgetRecords
  import opened Numerals
  import Debounce

  /** `after` is `before` with one record more at the end: a copy of
      `template` under an id that no record of `before` has. */
  predicate AppendsFreshCopy(before: seq<Widget>, after: seq<Widget>, template: Widget) {
    && |after| == |before| + 1
    && after[..|before|] == before
    && after[|before|] == template.(id := after[|before|].id)
    && !HasId(before, after[|before|].id)
  }

  class WidgetStore {
    /** `localWidgetsData` */
    var widgets: seq<Widget>
    /** `nextWidgetId.current` */
    var nextId: nat
    /** `saveTimeout`: the collection a pending save will write. */
    var saveSlot: Debounce.Slot<seq<Widget>>
    /** The collection the last save wrote to storage, if any. */
    var lastWritten: Option<seq<Widget>>

    /** The counter is at least every id number in the collection (equal to
        the largest once there is a record), and the latest collection is
        either already written or waiting to be. */
    ghost predicate Valid()
      reads this
    {
      && nextId >= MaxIdNumber(widgets)
      && (widgets != [] ==> nextId == MaxIdNumber(widgets))
      && (saveSlot.Pending? ==> saveSlot.value == widgets)
      && (saveSlot.Idle? ==> lastWritten == Some(widgets))
    }

    /** Mounting: the stored value is loaded (`fetchWidgetsData`) and the
        effects run on the loaded collection. */
    constructor Load(saved: Option<string>, parse: string -> Option<seq<Widget>>)
      ensures Valid()
      ensures widgets == LoadWidgets(saved, parse)
      ensures nextId == MaxIdNumber(widgets)
      ensures saveSlot == Debounce.Pending(widgets) && lastWritten == None
    {
      var loaded := LoadWidgets(saved, parse);
      widgets := loaded;
      nextId := MaxIdNumber(loaded);
      saveSlot := Debounce.Pending(loaded);
      lastWritten := None;
    }

    /** The state setter followed by the two effects that depend on the
        collection. */
    method Commit(ws: seq<Widget>)
      modifies this
      ensures Valid()
      ensures widgets == ws
      ensures nextId == if ws != [] then MaxIdNumber(ws) else old(nextId)
      ensures saveSlot == Debounce.Pending(ws) && lastWritten == old(lastWritten)
    {
      widgets := ws;
      if |ws| > 0 {
        nextId := MaxIdNumber(ws);
      } else {
        MaxIdNumberEmpty();
      }
      saveSlot := Debounce.Schedule(saveSlot, ws);
    }

    /** The save timer fires: the scheduled collection is written. */
    method FireSaveTimer()
      requires Valid()
      modifies this
      ensures Valid()
      ensures widgets == old(widgets) && nextId == old(nextId)
      ensures saveSlot == Debounce.Idle
      ensures lastWritten == if old(saveSlot).Pending? then Some(old(widgets)) else old(lastWritten)
    {
      var (slot, out) := Debounce.Fire(saveSlot);
      saveSlot := slot;
      if out.Some? {
        lastWritten := out;
      }
    }

    /** `addWidget(type)`: the counter is bumped first, the registry default
        for `kind` is copied with only its id replaced by `widget-<n>`, and
        the copy is appended. The new id is used by no existing record. The
        appended record is handed back so callers can name it. */
    method AddWidget(kind: WidgetType, registry: WidgetType -> Widget) returns (added: Widget)
      requires Valid()
      modifies this
      ensures Valid()
      ensures added == registry(kind).(id := MintId(old(nextId) + 1))
      ensures widgets == old(widgets) + [added]
      ensures !HasId(old(widgets), added.id)
      ensures AppendsFreshCopy(old(widgets), widgets, registry(kind))
      ensures nextId == old(nextId) + 1
      ensures saveSlot == Debounce.Pending(widgets) && lastWritten == old(lastWritten)
    {
      var n := nextId + 1;
      added := registry(kind).(id := MintId(n));
      AppendMinted(widgets, added, n);
      nextId := n;
      Commit(widgets + [added]);
      assert widgets[..|old(widgets)|] == old(widgets);
    }

    /** `updateWidget(id, updater)`: the updater is applied to every record
        with that id; length, order and the other records are kept. */
    method UpdateWidget(id: string, f: Widget -> Widget)
      requires Valid()
      modifies this
      ensures Valid()
      ensures widgets == UpdateWhere(old(widgets), id, f)
      ensures !HasId(old(widgets), id) ==> widgets == old(widgets)
      ensures nextId == if widgets != [] then MaxIdNumber(widgets) else old(nextId)
      ensures saveSlot == Debounce.Pending(widgets) && lastWritten == old(lastWritten)
    {
      if !HasId(widgets, id) {
        UpdateAbsent(widgets, id, f);
      }
      Commit(UpdateWhere(widgets, id, f));
    }

    /** `updateWidgetPosition`: only `position` of the matching records changes. */
    method UpdateWidgetPosition(id: string, p: Position)
      requires Valid()
      modifies this
      ensures Valid()
      ensures |widgets| == |old(widgets)|
      ensures forall i :: 0 <= i < |widgets| ==>
                widgets[i] == if old(widgets)[i].id == id then old(widgets)[i].(position := p) else old(widgets)[i]
      ensures nextId == if widgets != [] then MaxIdNumber(widgets) else old(nextId)
      ensures saveSlot == Debounce.Pending(widgets) && lastWritten == old(lastWritten)
    {
      UpdateWidget(id, MoveTo(p));
    }

    /** `updateWidgetSize`: only `size` of the matching records changes. */
    method UpdateWidgetSize(id: string, s: Size)
      requires Valid()
      modifies this
      ensures Valid()
      ensures |widgets| == |old(widgets)|
      ensures forall i :: 0 <= i < |widgets| ==>
                widgets[i] == if old(widgets)[i].id == id then old(widgets)[i].(size := s) else old(widgets)[i]
      ensures nextId == if widgets != [] then MaxIdNumber(widgets) else old(nextId)
      ensures saveSlot == Debounce.Pending(widgets) && lastWritten == old(lastWritten)
    {
      UpdateWidget(id, ResizeTo(s));
    }

    /** `updateWidgetData`: the matching records are replaced whole. */
    method UpdateWidgetData(id: string, newData: Widget)
      requires Valid()
      modifies this
      ensures Valid()
      ensures |widgets| == |old(widgets)|
      ensures forall i :: 0 <= i < |widgets| ==>
                widgets[i] == if old(widgets)[i].id == id then newData else old(widgets)[i]
      ensures nextId == if widgets != [] then MaxIdNumber(widgets) else old(nextId)
      ensures saveSlot == Debounce.Pending(widgets) && lastWritten == old(lastWritten)
    {
      UpdateWidget(id, (_: Widget) => newData);
    }

    /** `deleteWidget`: every record with that id goes, the others stay in order. */
    method DeleteWidget(id: string)
      requires Valid()
      modifies this
      ensures Valid()
      ensures widgets == RemoveId(old(widgets), id)
      ensures !HasId(old(widgets), id) ==> widgets == old(widgets)
      ensures nextId == if widgets != [] then MaxIdNumber(widgets) else old(nextId)
      ensures saveSlot == Debounce.Pending(widgets) && lastWritten == old(lastWritten)
    {
      if !HasId(widgets, id) {
        RemoveAbsent(widgets, id);
      }
      Commit(RemoveId(widgets, id));
    }

    /** `getWidgetById`: the first record with that id, or null. */
    function GetWidgetById(id: string): (r: Option<Widget>)
      reads this
      ensures r.None? <==> !HasId(widgets, id)
      ensures r.Some? ==> exists i :: 0 <= i < |widgets| && widgets[i] == r.value && r.value.id == id &&
                                      forall j :: 0 <= j < i ==> widgets[j].id != id
    {
      FindById(widgets, id)
    }

    /** The debounced window-resize handler: the collection is replaced by a
        copy, which re-renders and re-schedules the save. */
    method HandleResize()
      requires Valid()
      modifies this
      ensures Valid()
      ensures widgets == old(widgets) && nextId == old(nextId)
      ensures saveSlot == Debounce.Pending(widgets) && lastWritten == old(lastWritten)
    {
      Commit(widgets[..]);
    }
  }

  /** Deleting the newest record (the one the last add minted, one above
      the counter of the records before it) leaves exactly those records,
      and their recovered counter is again one below its number. */
  lemma {:induction false} RemoveNewestRestoresCounter(ws: seq<Widget>, n: nat)
    requires ws != [] && n == MaxIdNumber(ws[..|ws| - 1]) + 1
    requires ws[|ws| - 1].id == MintId(n)
    ensures RemoveId(ws, MintId(n)) == ws[..|ws| - 1]
    ensures MaxIdNumber(RemoveId(ws, MintId(n))) + 1 == n
  {
    var before, id := ws[..|ws| - 1], MintId(n);
    assert RemoveId(ws, id) == before by {
      MintedIsFresh(before, n);
      RemoveLastOnly(ws, id);
    }
  }

  /** Because the counter is recovered from the surviving records, deleting
      the newest record and adding again mints the deleted id a second time,
      as long as some record survives the delete. (The earlier store only
      ever raises its counter, so it never does this; see `MintedIdsDiffer`.) */
  method NewestIdReusedAfterDelete(st: WidgetStore, kind: WidgetType, registry: WidgetType -> Widget)
    returns (added: Widget)
    requires st.Valid() && |st.widgets| >= 2
    requires st.widgets[|st.widgets| - 1].id == MintId(MaxIdNumber(st.widgets[..|st.widgets| - 1]) + 1)
    modifies st
    ensures added.id == old(st.widgets[|st.widgets| - 1].id)
    ensures st.widgets == old(st.widgets[..|st.widgets| - 1]) + [added]
  {
    var ws := st.widgets;
    var n := MaxIdNumber(ws[..|ws| - 1]) + 1;
    RemoveNewestRestoresCounter(ws, n);
    st.DeleteWidget(MintId(n));
    added := st.AddWidget(kind, registry);
  }

  /** When the deleted record was the only one, the empty collection leaves
      the counter where it was, so the next add mints a new id instead. */
  method OnlyIdNotReusedAfterDelete(st: WidgetStore, kind: WidgetType, registry: WidgetType -> Widget)
    returns (added: Widget)
    requires st.Valid() && |st.widgets| == 1
    modifies st
    ensures added.id == MintId(old(st.nextId) + 1)
    ensures added.id != old(st.widgets[0].id)
    ensures st.widgets == [added]
  {
    var w, k := st.widgets[0], st.nextId + 1;
    assert st.widgets == [w];
    assert MintId(k) != w.id by {
      MintedIsFresh([w], k);
    }
    assert RemoveId([w], w.id) == [] by {
      assert [w][1..] == [];
    }
    st.DeleteWidget(w.id);
    assert st.widgets == [] && st.nextId + 1 == k;
    added := st.AddWidget(kind, registry);
  }
}

/** The widget record and the pure collection updaters both store revisions
    hand to React's state setter: the `map` that rewrites matching records,
    the `filter` that deletes, the `find` that looks up, the `reduce` that
    recovers the id counter, and the load of the persisted array. */
module WidgetRecords {
  import opened Text
  import opened Numerals

  /** Percentages of the viewport. */
  datatype Position = Position(x: real, y: real)

  /** Extent units (pixels in the resize box, percentages in later defaults). */
  datatype Size = Size(width: real, height: real)

  datatype WidgetType = Weather | Bookmark | Iframe | Datetime | Search

  /** Type-specific fields (city, bookmarks, engine, history, ...), which the
      canvas never interprets. */
  type Config = map<string, string>

  datatype Widget = Widget(id: string, kind: WidgetType, position: Position, size: Size, config: Option<Config>)

  predicate HasId(ws: seq<Widget>, id: string) {
    exists i :: 0 <= i < |ws| && ws[i].id == id
  }

  // ---------------------------------------------------------------------
  // Ids: `widget-N` and the recovery of N

  /** The characters of `s` before its first '-'. */
  function UpToDash(s: string): (r: string)
    ensures StartsWith(s, r)
    ensures forall i :: 0 <= i < |r| ==> r[i] != '-'
    ensures (forall i :: 0 <= i < |s| ==> s[i] != '-') ==> r == s
  {
    if s == [] || s[0] == '-' then [] else [s[0]] + UpToDash(s[1..])
  }

  /** `id.split("-")[1]`; None is the `undefined` of an id without '-'. */
  function SecondSegment(id: string): Option<string> {
    match IndexOf(id, "-")
    case None => None
    case Some(i) => Some(UpToDash(id[i + 1..]))
  }

  /** `parseInt(id.split("-")[1], 10) || 0`: NaN and 0 both give 0. */
  function IdNumber(id: string): int {
    match SecondSegment(id)
    case None => 0
    case Some(seg) =>
      match ParseIntDecimal(seg)
      case None => 0
      case Some(v) => v
  }

  /** `` `widget-${n}` `` */
  function MintId(n: nat): string {
    "widget-" + NatToString(n)
  }

  /** The number recovered from a minted id is the number it was minted from. */
  lemma IdNumberOfMinted(n: nat)
    ensures IdNumber(MintId(n)) == n
  {
    MintedSecondSegment(n);
    ParseNatToString(n);
  }

  /** The second segment of `widget-<n>` is the printed number. */
  lemma MintedSecondSegment(n: nat)
    ensures SecondSegment(MintId(n)) == Some(NatToString(n))
  {
    var id := MintId(n);
    var digits := NatToString(n);
    MintedFirstDash(n);
    assert id[7..] == digits;
    NoDashInDigits(digits);
  }

  /** The first '-' of `widget-<n>` is the one after `widget`. */
  lemma MintedFirstDash(n: nat)
    ensures IndexOf(MintId(n), "-") == Some(6)
  {
    var id := MintId(n);
    assert OccursAt(id, "-", 6);
    forall j | 0 <= j < 6 ensures !OccursAt(id, "-", j) {
      assert id[j] == "widget"[j];
    }
  }

  /** Printed digits contain no '-', so the segment runs to the end. */
  lemma NoDashInDigits(digits: string)
    requires AllDigits(digits, 10)
    ensures UpToDash(digits) == digits
  {
    forall i | 0 <= i < |digits| ensures digits[i] != '-' {
      assert IsDigit(digits[i], 10);
    }
  }

  /** `xs.reduce((max, x) => Math.max(max, x), 0)` */
  function MaxFromZero(xs: seq<int>): (r: int)
    ensures r >= 0
  {
    if xs == [] then 0
    else
      var acc := MaxFromZero(xs[..|xs| - 1]);
      if acc >= xs[|xs| - 1] then acc else xs[|xs| - 1]
  }

  /** The `reduce` bounds every element and, unless it is 0, is one of them. */
  lemma {:induction false} MaxFromZeroBounds(xs: seq<int>)
    ensures forall i :: 0 <= i < |xs| ==> xs[i] <= MaxFromZero(xs)
    ensures MaxFromZero(xs) == 0 || exists i :: 0 <= i < |xs| && xs[i] == MaxFromZero(xs)
  {
    if xs != [] {
      var init := xs[..|xs| - 1];
      MaxFromZeroBounds(init);
      assert forall i :: 0 <= i < |init| ==> init[i] == xs[i];
    }
  }

  function IdNumbers(ws: seq<Widget>): (r: seq<int>)
    ensures |r| == |ws| && forall i :: 0 <= i < |ws| ==> r[i] == IdNumber(ws[i].id)
  {
    seq(|ws|, i requires 0 <= i < |ws| => IdNumber(ws[i].id))
  }

  /** The counter-recovery `reduce`: the largest id number in the
      collection, and 0 when there is none above 0. */
  function MaxIdNumber(ws: seq<Widget>): (r: int)
    ensures r >= 0
  {
    MaxFromZero(IdNumbers(ws))
  }

  /** The recovered counter bounds every id number in the collection and,
      unless it is 0, is the number of one of them. */
  lemma MaxIdNumberBounds(ws: seq<Widget>)
    ensures forall i :: 0 <= i < |ws| ==> IdNumber(ws[i].id) <= MaxIdNumber(ws)
    ensures MaxIdNumber(ws) == 0 || exists i :: 0 <= i < |ws| && IdNumber(ws[i].id) == MaxIdNumber(ws)
  {
    var xs := IdNumbers(ws);
    MaxFromZeroBounds(xs);
  }

  /** An empty collection recovers 0. */
  lemma MaxIdNumberEmpty()
    ensures MaxIdNumber([]) == 0
  {
    assert IdNumbers([]) == [];
  }

  /** An id minted above every recovered number is unused. */
  lemma {:induction false} MintedIsFresh(ws: seq<Widget>, n: nat)
    requires n > MaxIdNumber(ws)
    ensures !HasId(ws, MintId(n))
  {
    IdNumberOfMinted(n);
    MaxIdNumberBounds(ws);
    forall i | 0 <= i < |ws| ensures ws[i].id != MintId(n) {
      assert IdNumber(ws[i].id) < IdNumber(MintId(n));
    }
  }

  /** Recovery depends only on the ids: a collection with the same ids in
      the same order recovers the same counter. */
  lemma MaxIdNumberOnlyIds(a: seq<Widget>, b: seq<Widget>)
    requires |a| == |b| && forall i :: 0 <= i < |a| ==> a[i].id == b[i].id
    ensures MaxIdNumber(a) == MaxIdNumber(b)
  {
    assert IdNumbers(a) == IdNumbers(b);
  }

  /** Appending a record raises the recovered counter to its number at most. */
  lemma {:induction false} MaxIdNumberAppend(ws: seq<Widget>, w: Widget)
    ensures MaxIdNumber(ws + [w]) == if MaxIdNumber(ws) >= IdNumber(w.id) then MaxIdNumber(ws) else IdNumber(w.id)
  {
    var xs := IdNumbers(ws + [w]);
    assert xs[..|ws|] == IdNumbers(ws);
    assert xs[|ws|] == IdNumber(w.id);
  }

  /** Appending a record minted one above the counter: the id is unused
      and the recovered counter becomes exactly that number. */
  lemma AppendMinted(ws: seq<Widget>, w: Widget, n: nat)
    requires MaxIdNumber(ws) < n && w.id == MintId(n)
    ensures !HasId(ws, w.id)
    ensures MaxIdNumber(ws + [w]) == n
  {
    MintedIsFresh(ws, n);
    IdNumberOfMinted(n);
    MaxIdNumberAppend(ws, w);
  }

  /** Updaters that keep ids keep the recovered counter. */
  lemma UpdateKeepsMax(ws: seq<Widget>, id: string, f: Widget -> Widget)
    requires forall w :: f(w).id == w.id
    ensures MaxIdNumber(UpdateWhere(ws, id, f)) == MaxIdNumber(ws)
  {
    UpdateKeepsIds(ws, id, f);
    MaxIdNumberOnlyIds(UpdateWhere(ws, id, f), ws);
  }

  /** Deleting never raises the recovered counter. */
  lemma MaxIdNumberRemove(ws: seq<Widget>, id: string)
    ensures MaxIdNumber(RemoveId(ws, id)) <= MaxIdNumber(ws)
  {
    var r := RemoveId(ws, id);
    var m := MaxIdNumber(r);
    MaxIdNumberBounds(r);
    MaxIdNumberBounds(ws);
    if m != 0 {
      var i :| 0 <= i < |r| && IdNumber(r[i].id) == m;
      assert r[i] in ws;
      var j :| 0 <= j < |ws| && ws[j] == r[i];
      assert IdNumber(ws[j].id) == m;
    }
  }

  // ---------------------------------------------------------------------
  // Loading

  /** `fetchWidgetsData`: a missing or empty stored string, or one the
      parser rejects, loads as the empty collection; otherwise the parsed
      array. `parse` stands for `JSON.parse` restricted to widget arrays. */
  function LoadWidgets(saved: Option<string>, parse: string -> Option<seq<Widget>>): (r: seq<Widget>)
    ensures saved.None? || saved.value == [] ==> r == []
    ensures saved.Some? && saved.value != [] && parse(saved.value).None? ==> r == []
    ensures saved.Some? && saved.value != [] && parse(saved.value).Some? ==> r == parse(saved.value).value
  {
    if saved.Some? && saved.value != [] then
      match parse(saved.value)
      case Some(ws) => ws
      case None => []
    else []
  }

  // ---------------------------------------------------------------------
  // Update: `ws.map(w => w.id === id ? f(w) : w)`

  function UpdateWhere(ws: seq<Widget>, id: string, f: Widget -> Widget): (r: seq<Widget>)
    ensures |r| == |ws|
    ensures forall i :: 0 <= i < |ws| && ws[i].id == id ==> r[i] == f(ws[i])
    ensures forall i :: 0 <= i < |ws| && ws[i].id != id ==> r[i] == ws[i]
  {
    if ws == [] then []
    else [if ws[0].id == id then f(ws[0]) else ws[0]] + UpdateWhere(ws[1..], id, f)
  }

  /** Updating an id nobody has changes nothing. */
  lemma UpdateAbsent(ws: seq<Widget>, id: string, f: Widget -> Widget)
    requires !HasId(ws, id)
    ensures UpdateWhere(ws, id, f) == ws
  {
  }

  /** An updater that keeps ids keeps every id of the collection in place. */
  lemma UpdateKeepsIds(ws: seq<Widget>, id: string, f: Widget -> Widget)
    requires forall w :: f(w).id == w.id
    ensures forall i :: 0 <= i < |ws| ==> UpdateWhere(ws, id, f)[i].id == ws[i].id
  {
  }

  function MoveTo(p: Position): Widget -> Widget {
    (w: Widget) => w.(position := p)
  }

  function ResizeTo(s: Size): Widget -> Widget {
    (w: Widget) => w.(size := s)
  }

  // ---------------------------------------------------------------------
  // Delete: `ws.filter(w => w.id !== id)`

  function RemoveId(ws: seq<Widget>, id: string): (r: seq<Widget>)
    ensures |r| <= |ws|
    ensures !HasId(r, id)
    ensures forall w :: w in r <==> w in ws && w.id != id
  {
    if ws == [] then []
    else if ws[0].id == id then RemoveId(ws[1..], id)
    else [ws[0]] + RemoveId(ws[1..], id)
  }

  /** Filtering works piecewise, so the survivors keep their relative order. */
  lemma {:induction false} RemoveIdConcat(a: seq<Widget>, b: seq<Widget>, id: string)
    ensures RemoveId(a + b, id) == RemoveId(a, id) + RemoveId(b, id)
  {
    if a == [] {
      assert a + b == b;
    } else {
      assert (a + b)[0] == a[0] && (a + b)[1..] == a[1..] + b;
      RemoveIdConcat(a[1..], b, id);
      if a[0].id != id {
        calc {
          RemoveId(a + b, id);
          [a[0]] + RemoveId(a[1..] + b, id);
          [a[0]] + (RemoveId(a[1..], id) + RemoveId(b, id));
          ([a[0]] + RemoveId(a[1..], id)) + RemoveId(b, id);
        }
      }
    }
  }

  /** Deleting an id nobody has changes nothing. */
  lemma {:induction false} RemoveAbsent(ws: seq<Widget>, id: string)
    requires !HasId(ws, id)
    ensures RemoveId(ws, id) == ws
  {
    if ws != [] {
      var rest := ws[1..];
      assert ws[0].id != id;
      assert !HasId(rest, id) by {
        forall i | 0 <= i < |rest| ensures rest[i].id != id {
          assert rest[i] == ws[i + 1];
        }
      }
      RemoveAbsent(rest, id);
      assert ws == [ws[0]] + rest;
    }
  }

  /** Deleting the id of the last record, when no earlier record carries it,
      leaves exactly the records before it. */
  lemma {:induction false} RemoveLastOnly(ws: seq<Widget>, id: string)
    requires ws != [] && ws[|ws| - 1].id == id
    requires !HasId(ws[..|ws| - 1], id)
    ensures RemoveId(ws, id) == ws[..|ws| - 1]
  {
    var before := ws[..|ws| - 1];
    var last := ws[|ws| - 1];
    assert ws == before + [last];
    RemoveAbsent(before, id);
    RemoveIdConcat(before, [last], id);
    assert RemoveId([last], id) == [] by {
      assert [last][1..] == [];
    }
  }

  /** Deleting twice is deleting once. */
  lemma RemoveIdempotent(ws: seq<Widget>, id: string)
    ensures RemoveId(RemoveId(ws, id), id) == RemoveId(ws, id)
  {
    RemoveAbsent(RemoveId(ws, id), id);
  }

  /** Deleting removes exactly the records carrying that id. */
  lemma {:induction false} RemoveCount(ws: seq<Widget>, id: string)
    ensures |RemoveId(ws, id)| == |ws| - CountId(ws, id)
  {
    if ws != [] {
      RemoveCount(ws[1..], id);
    }
  }

  function CountId(ws: seq<Widget>, id: string): nat {
    if ws == [] then 0 else (if ws[0].id == id then 1 else 0) + CountId(ws[1..], id)
  }

  // ---------------------------------------------------------------------
  // Lookup: `ws.find(w => w.id === id) || null`

  function FindById(ws: seq<Widget>, id: string): (r: Option<Widget>)
    ensures r.None? <==> !HasId(ws, id)
    ensures r.Some? ==> exists i :: 0 <= i < |ws| && ws[i] == r.value && ws[i].id == id &&
                                    forall j :: 0 <= j < i ==> ws[j].id != id
  {
    if ws == [] then None
    else if ws[0].id == id then Some(ws[0])
    else
      var r := FindById(ws[1..], id);
      assert HasId(ws, id) ==> HasId(ws[1..], id) by {
        if HasId(ws, id) {
          var i :| 0 <= i < |ws| && ws[i].id == id;
          assert ws[1..][i - 1].id == id;
        }
      }
      if r.Some? then
        var i :| 0 <= i < |ws[1..]| && ws[1..][i] == r.value && ws[1..][i].id == id &&
                 forall j :: 0 <= j < i ==> ws[1..][j].id != id;
        assert ws[i + 1] == r.value;
        assert forall j :: 0 <= j < i + 1 ==> ws[j].id != id by {
          forall j | 0 <= j < i + 1 ensures ws[j].id != id {
            if j > 0 { assert ws[j] == ws[1..][j - 1]; }
          }
        }
        r
      else r
  }
}

/** Slicing a Data Set payload into records against a template layout. */
module DataSet {
  import opened Wire
  import opened Flow
  import opened Fields

  datatype Taken = Taken(value: bytes, rest: bytes)
  datatype Sliced = Sliced(cells: seq<bytes>, rest: bytes)

  function TakeBytes(s: bytes, n: nat): Option<Taken> {
    if n > |s| then None else Some(Taken(s[..n], s[n..]))
  }

  /** One field off the front; variable-length elements carry a prefix (section 7 of RFC 7011). */
  function SliceField(f: FieldSpec, s: bytes): Option<Taken> {
    if !f.IsVariable() then TakeBytes(s, f.length)
    else if |s| < 1 then None
    else if s[0] < 255 then TakeBytes(s[1..], s[0])
    else if |s| < 3 then None
    else TakeBytes(s[3..], U16(s, 1))
  }

  function SliceRecord(fields: seq<FieldSpec>, s: bytes): (r: Option<Sliced>)
    ensures r.Some? ==> |r.value.cells| == |fields|
    ensures r.Some? ==> |r.value.rest| <= |s|
  {
    if fields == [] then Some(Sliced([], s))
    else
      var t := SliceField(fields[0], s);
      if t.None? then None
      else
        var r := SliceRecord(fields[1..], t.value.rest);
        if r.None? then None else Some(Sliced([t.value.value] + r.value.cells, r.value.rest))
  }

  /** The decoder's footprint of a record: fixed lengths only, prefixes of variable fields left out. */
  function MinFixed(fields: seq<FieldSpec>): nat {
    if fields == [] then 0
    else
      var f := fields[|fields| - 1];
      MinFixed(fields[..|fields| - 1]) + (if f.IsVariable() then 0 else f.length)
  }

  function TruncatedRow(ctx: Ctx): FlowRecord {
    Diagnostic(ctx.exporter, Some(ctx.version), ctx.domain, ctx.exportTime, ctx.sequence, Truncated)
  }

  predicate Stops(fields: seq<FieldSpec>, s: bytes) {
    |s| == 0 || 0 < |s| < MinFixed(fields)
  }

  function DecodeRecords(fields: seq<FieldSpec>, s: bytes, ctx: Ctx): (rows: seq<FlowRecord>)
    decreases |s|
  {
    if Stops(fields, s) then []
    else
      var r := SliceRecord(fields, s);
      if r.None? then [TruncatedRow(ctx)]
      else
        [BuildRow(fields, r.value.cells, ctx)]
        + if |r.value.rest| == |s| then [] else DecodeRecords(fields, r.value.rest, ctx)
  }

  /** Only the layout matters: kind and fields, never the usage statistics. */
  function DecodeDataSet(kind: TemplateKind, fields: seq<FieldSpec>, payload: bytes, ctx: Ctx, flowsOnly: bool)
    : seq<FlowRecord>
  {
    if flowsOnly && kind == Options then [] else DecodeRecords(fields, payload, ctx)
  }

  // The loops of the source, proved against these functions.

  method ReadVarlen(cur: Cursor) returns (n: Option<nat>)
    requires cur.Valid()
    modifies cur`pos
    ensures cur.Valid()
    ensures var s := old(cur.Rest());
      if |s| < 1 || (s[0] == 255 && |s| < 3) then n.None?
      else if s[0] < 255 then n == Some(s[0]) && cur.Rest() == s[1..]
      else n == Some(U16(s, 1)) && cur.Rest() == s[3..]
  {
    var first := cur.ReadU8();
    if first.None? {
      return None;
    }
    if first.value < 255 {
      return Some(first.value);
    }
    var long := cur.ReadU16();
    if long.None? {
      return None;
    }
    n := Some(long.value);
  }

  method ReadField(f: FieldSpec, cur: Cursor) returns (b: Option<bytes>)
    requires cur.Valid()
    modifies cur`pos
    ensures cur.Valid()
    ensures var t := SliceField(f, old(cur.Rest()));
      if t.None? then b.None? else b == Some(t.value.value) && cur.Rest() == t.value.rest
  {
    var n: nat := f.length;
    if f.IsVariable() {
      var v := ReadVarlen(cur);
      if v.None? {
        return None;
      }
      n := v.value;
    }
    b := cur.Take(n);
  }

  /** What slicing the whole record gives, once the leading `cells` are off and `tail` is left to slice. */
  ghost function Resume(cells: seq<bytes>, tail: Option<Sliced>): Option<Sliced> {
    if tail.None? then None else Some(Sliced(cells + tail.value.cells, tail.value.rest))
  }

  lemma ResumeEnds(cells: seq<bytes>, r: Option<Sliced>, s: bytes)
    ensures Resume([], r) == r
    ensures Resume(cells, SliceRecord([], s)) == Some(Sliced(cells, s))
  {
    if r.Some? {
      assert [] + r.value.cells == r.value.cells;
    }
    assert cells + [] == cells;
  }

  lemma ResumeOne(fields: seq<FieldSpec>, i: nat, s: bytes, cells: seq<bytes>)
    requires i < |fields|
    ensures var t := SliceField(fields[i], s);
      Resume(cells, SliceRecord(fields[i..], s))
      == if t.None? then None else Resume(cells + [t.value.value], SliceRecord(fields[i + 1..], t.value.rest))
  {
    assert fields[i..][1..] == fields[i + 1..];
    var t := SliceField(fields[i], s);
    if t.Some? && SliceRecord(fields[i + 1..], t.value.rest).Some? {
      var more := SliceRecord(fields[i + 1..], t.value.rest).value.cells;
      assert cells + ([t.value.value] + more) == cells + [t.value.value] + more;
    }
  }

  method DecodeOneRecord(fields: seq<FieldSpec>, cur: Cursor, ctx: Ctx) returns (row: Option<FlowRecord>)
    requires cur.Valid()
    modifies cur`pos
    ensures cur.Valid()
    ensures var r := SliceRecord(fields, old(cur.Rest()));
      if r.None? then row.None?
      else row == Some(BuildRow(fields, r.value.cells, ctx)) && cur.Rest() == r.value.rest
  {
    hide MapField, SliceField, ResolveTimes, EmptyPartial;
    var p := EmptyPartial(ctx);
    ghost var cells: seq<bytes> := [];
    ghost var whole := SliceRecord(fields, cur.Rest());
    assert fields[0..] == fields;
    ResumeEnds([], whole, []);
    for i := 0 to |fields|
      invariant cur.Valid() && |cells| == i
      invariant p == MapFields(EmptyPartial(ctx), fields[..i], cells)
      invariant whole == Resume(cells, SliceRecord(fields[i..], cur.Rest()))
    {
      ResumeOne(fields, i, cur.Rest(), cells);
      var b := ReadField(fields[i], cur);
      if b.None? {
        return None;
      }
      assert fields[..i + 1][..i] == fields[..i] && (cells + [b.value])[..i] == cells;
      cells := cells + [b.value];
      p := MapField(p, fields[i], b.value);
    }
    assert fields[..|fields|] == fields;
    ResumeEnds(cells, None, cur.Rest());
    row := Some(ResolveTimes(p, ctx));
  }

  method ComputeMinFixed(fields: seq<FieldSpec>) returns (n: nat)
    ensures n == MinFixed(fields)
  {
    n := 0;
    for i := 0 to |fields|
      invariant n == MinFixed(fields[..i])
    {
      assert fields[..i + 1][..i] == fields[..i];
      if !fields[i].IsVariable() {
        n := n + fields[i].length;
      }
    }
    assert fields[..|fields|] == fields;
  }

  lemma RecordsUnfold(done: seq<FlowRecord>, fields: seq<FieldSpec>, s: bytes, ctx: Ctx)
    ensures var r, all := SliceRecord(fields, s), done + DecodeRecords(fields, s, ctx);
      if Stops(fields, s) then all == done
      else if r.None? then all == done + [TruncatedRow(ctx)]
      else if |r.value.rest| == |s| then all == done + [BuildRow(fields, r.value.cells, ctx)]
      else all == done + [BuildRow(fields, r.value.cells, ctx)] + DecodeRecords(fields, r.value.rest, ctx)
  {
    hide BuildRow, TruncatedRow, SliceRecord, Stops;
  }

  method DecodePayload(kind: TemplateKind, fields: seq<FieldSpec>, payload: bytes, ctx: Ctx, flowsOnly: bool)
    returns (out: seq<FlowRecord>)
    ensures out == DecodeDataSet(kind, fields, payload, ctx, flowsOnly)
  {
    hide BuildRow, TruncatedRow, SliceRecord, MinFixed, DecodeRecords;
    if flowsOnly && kind == Options {
      return [];
    }
    out := [];
    var cur := new Cursor(payload);
    var minFixed := ComputeMinFixed(fields);
    while true
      invariant cur.Valid()
      invariant out + DecodeRecords(fields, cur.Rest(), ctx) == DecodeRecords(fields, payload, ctx)
      decreases |cur.Rest()|
    {
      RecordsUnfold(out, fields, cur.Rest(), ctx);
      var rem := cur.Remaining();
      if rem == 0 || (minFixed > 0 && rem < minFixed) {
        break;
      }
      var start := cur.pos;
      var rec := DecodeOneRecord(fields, cur, ctx);
      if rec.None? {
        out := out + [TruncatedRow(ctx)];
        break;
      }
      out := out + [rec.value];
      if cur.pos == start {
        break;
      }
    }
  }

  // Printing records: the inverse the decoder is measured against.

  /** One value and, for a variable-length element, whether it uses the three-byte prefix. */
  datatype Cell = Cell(value: bytes, long: bool)

  predicate CellFits(f: FieldSpec, c: Cell) {
    if f.IsVariable() then |c.value| < TWO_16 && (!c.long ==> |c.value| < 255) else |c.value| == f.length
  }

  predicate RecordFits(fields: seq<FieldSpec>, cells: seq<Cell>) {
    |cells| == |fields| && forall i :: 0 <= i < |fields| ==> CellFits(fields[i], cells[i])
  }

  predicate AllFit(fields: seq<FieldSpec>, records: seq<seq<Cell>>) {
    forall i :: 0 <= i < |records| ==> RecordFits(fields, records[i])
  }

  function PrintCell(f: FieldSpec, c: Cell): bytes
    requires CellFits(f, c)
  {
    if !f.IsVariable() then c.value
    else if c.long then [255] + Put16(|c.value|) + c.value
    else [|c.value|] + c.value
  }

  function PrintRecord(fields: seq<FieldSpec>, cells: seq<Cell>): bytes
    requires RecordFits(fields, cells)
  {
    if fields == [] then [] else PrintCell(fields[0], cells[0]) + PrintRecord(fields[1..], cells[1..])
  }

  function PrintRecords(fields: seq<FieldSpec>, records: seq<seq<Cell>>): bytes
    requires AllFit(fields, records)
  {
    if records == [] then [] else PrintRecord(fields, records[0]) + PrintRecords(fields, records[1..])
  }

  function Values(cells: seq<Cell>): (r: seq<bytes>)
    ensures |r| == |cells|
  {
    if cells == [] then [] else [cells[0].value] + Values(cells[1..])
  }

  function BuiltRows(fields: seq<FieldSpec>, records: seq<seq<Cell>>, ctx: Ctx): (rows: seq<FlowRecord>)
    requires AllFit(fields, records)
    ensures |rows| == |records|
    ensures forall i :: 0 <= i < |records| ==>
      RecordFits(fields, records[i]) && rows[i] == BuildRow(fields, Values(records[i]), ctx)
  {
    hide BuildRow;
    if records == [] then []
    else
      assert RecordFits(fields, records[0]);
      [BuildRow(fields, Values(records[0]), ctx)] + BuiltRows(fields, records[1..], ctx)
  }

  /** The smallest wire size of a record, prefixes included (section 3.3.1 of RFC 7011). */
  function MinRecord(fields: seq<FieldSpec>): nat {
    if fields == [] then 0
    else (if fields[0].IsVariable() then 1 else fields[0].length) + MinRecord(fields[1..])
  }

  lemma SliceCell(f: FieldSpec, c: Cell, rest: bytes)
    requires CellFits(f, c)
    ensures SliceField(f, PrintCell(f, c) + rest) == Some(Taken(c.value, rest))
  {
    var s := PrintCell(f, c) + rest;
    if !f.IsVariable() {
      assert s[..f.length] == c.value && s[f.length..] == rest;
    } else if c.long {
      assert s[3..] == c.value + rest && U16(s, 1) == |c.value|;
    } else {
      assert s[1..] == c.value + rest;
    }
  }

  lemma {:induction false} SlicePrinted(fields: seq<FieldSpec>, cells: seq<Cell>, rest: bytes)
    requires RecordFits(fields, cells)
    ensures SliceRecord(fields, PrintRecord(fields, cells) + rest) == Some(Sliced(Values(cells), rest))
  {
    if fields == [] {
      assert PrintRecord(fields, cells) + rest == rest;
    } else {
      var after := PrintRecord(fields[1..], cells[1..]) + rest;
      assert PrintRecord(fields, cells) + rest == PrintCell(fields[0], cells[0]) + after;
      SliceCell(fields[0], cells[0], after);
      SlicePrinted(fields[1..], cells[1..], rest);
    }
  }

  lemma {:induction false} MinFixedCons(f: FieldSpec, fields: seq<FieldSpec>)
    ensures MinFixed([f] + fields) == (if f.IsVariable() then 0 else f.length) + MinFixed(fields)
  {
    var all := [f] + fields;
    if fields == [] {
      assert all[..|all| - 1] == [];
    } else {
      MinFixedCons(f, fields[..|fields| - 1]);
      assert all[..|all| - 1] == [f] + fields[..|fields| - 1];
    }
  }

  lemma {:induction false} PrintedSize(fields: seq<FieldSpec>, cells: seq<Cell>)
    requires RecordFits(fields, cells)
    ensures MinFixed(fields) <= MinRecord(fields) <= |PrintRecord(fields, cells)|
  {
    if fields != [] {
      PrintedSize(fields[1..], cells[1..]);
      MinFixedCons(fields[0], fields[1..]);
      assert [fields[0]] + fields[1..] == fields;
    }
  }

  /** The bytes of a field that slices are its printed value and then the rest. */
  lemma CellExact(f: FieldSpec, s: bytes) returns (c: Cell)
    requires SliceField(f, s).Some?
    ensures CellFits(f, c) && c.value == SliceField(f, s).value.value
    ensures PrintCell(f, c) + SliceField(f, s).value.rest == s
  {
    hide U16, Put16;
    var t := SliceField(f, s).value;
    c := Cell(t.value, f.IsVariable() && s[0] == 255);
    var n := if !f.IsVariable() then 0 else if c.long then 3 else 1;
    Rejoined(s, n, |t.value|);
    if f.IsVariable() {
      PrefixIs(s);
    }
  }

  /** A prefix, a value and a rest put together again. */
  lemma Rejoined(s: bytes, n: nat, m: nat)
    requires n + m <= |s|
    ensures s[..n] + s[n..][..m] + s[n..][m..] == s
    ensures n == 0 ==> s[..n] + s[n..][..m] == s[..m] && s[n..] == s
  {
  }

  lemma PrefixIs(s: bytes)
    ensures |s| >= 1 ==> s[..1] == [s[0]]
    ensures |s| >= 3 && s[0] == 255 ==> s[..3] == [255] + Put16(U16(s, 1))
  {
  }

  lemma SliceFirst(fields: seq<FieldSpec>, s: bytes)
    requires fields != [] && SliceRecord(fields, s).Some?
    ensures var t := SliceField(fields[0], s);
      && t.Some? && SliceRecord(fields[1..], t.value.rest).Some?
      && var more := SliceRecord(fields[1..], t.value.rest).value;
         SliceRecord(fields, s).value == Sliced([t.value.value] + more.cells, more.rest)
  {
    hide SliceField;
  }

  lemma RecordCons(fields: seq<FieldSpec>, c: Cell, more: seq<Cell>)
    requires fields != [] && CellFits(fields[0], c) && RecordFits(fields[1..], more)
    ensures RecordFits(fields, [c] + more) && Values([c] + more) == [c.value] + Values(more)
    ensures PrintRecord(fields, [c] + more) == PrintCell(fields[0], c) + PrintRecord(fields[1..], more)
  {
    var all := [c] + more;
    assert all[1..] == more;
    forall i | 0 <= i < |fields| ensures CellFits(fields[i], all[i]) {
      assert i > 0 ==> fields[i] == fields[1..][i - 1] && all[i] == more[i - 1];
    }
    hide CellFits, PrintCell;
  }

  /** A record that slices begins with a printed record, and that one comes off. */
  lemma {:induction false} SliceIsExact(fields: seq<FieldSpec>, s: bytes) returns (cells: seq<Cell>)
    requires SliceRecord(fields, s).Some?
    ensures RecordFits(fields, cells) && Values(cells) == SliceRecord(fields, s).value.cells
    ensures PrintRecord(fields, cells) + SliceRecord(fields, s).value.rest == s
  {
    if fields == [] {
      cells := [];
      assert PrintRecord(fields, cells) + s == s;
    } else {
      SliceFirst(fields, s);
      var c := CellExact(fields[0], s);
      var more := SliceIsExact(fields[1..], SliceField(fields[0], s).value.rest);
      cells := [c] + more;
      RecordCons(fields, c, more);
      hide SliceField, SliceRecord, PrintCell, PrintRecord, CellFits, RecordFits, Values;
      Regroup(PrintCell(fields[0], c), PrintRecord(fields[1..], more), SliceRecord(fields, s).value.rest);
    }
  }

  lemma SliceIff(fields: seq<FieldSpec>, s: bytes)
    ensures SliceRecord(fields, s).Some?
       <==> exists cells: seq<Cell> :: RecordFits(fields, cells) && PrintRecord(fields, cells) <= s
  {
    if SliceRecord(fields, s).Some? {
      var cells := SliceIsExact(fields, s);
      assert PrintRecord(fields, cells) <= s;
    }
    if cells: seq<Cell> :| RecordFits(fields, cells) && PrintRecord(fields, cells) <= s {
      var n := |PrintRecord(fields, cells)|;
      assert s == PrintRecord(fields, cells) + s[n..];
      SlicePrinted(fields, cells, s[n..]);
    }
    hide SliceRecord, RecordFits, PrintRecord;
  }

  /**
   * After printed records, bytes that are long enough for the fixed part of a record but begin with no whole record
   * give one row that reports the truncation under the context, and nothing more.
   */
  lemma CutRecordIsReported(fields: seq<FieldSpec>, records: seq<seq<Cell>>, cut: bytes, ctx: Ctx)
    requires MinRecord(fields) > 0 && AllFit(fields, records)
    requires cut != [] && |cut| >= MinFixed(fields)
    requires forall cells: seq<Cell> :: RecordFits(fields, cells) ==> !(PrintRecord(fields, cells) <= cut)
    ensures var rows := DecodeRecords(fields, PrintRecords(fields, records) + cut, ctx);
      && |rows| == |records| + 1 && rows[..|records|] == BuiltRows(fields, records, ctx)
      && Reports(rows[|records|], ctx.exporter, Some(ctx.version), ctx.domain, ctx.exportTime, ctx.sequence, Truncated)
  {
    RecordsRoundTrip(fields, records, cut, ctx);
    SliceIff(fields, cut);
    DiagnosticReports(ctx.exporter, Some(ctx.version), ctx.domain, ctx.exportTime, ctx.sequence, Truncated);
    hide BuildRow, BuiltRows, RecordFits, PrintRecord, MinFixed, MinRecord, PrintRecords, Reports, Diagnostic,
      SliceRecord, AllFit;
  }

  function EmptyCells(n: nat): (cells: seq<bytes>)
    ensures |cells| == n && forall i :: 0 <= i < n ==> cells[i] == []
  {
    seq(n, _ => [])
  }

  /** A layout whose records take no bytes gives one row for any payload that is not empty, and then stops. */
  lemma ZeroSizeRecords(fields: seq<FieldSpec>, s: bytes, ctx: Ctx)
    requires AllFixed(fields) && MinFixed(fields) == 0 && s != []
    ensures DecodeRecords(fields, s, ctx) == [BuildRow(fields, EmptyCells(|fields|), ctx)]
  {
    SliceFixed(fields, s);
    var cells := SliceRecord(fields, s).value.cells;
    assert s[..0] == [];
    SliceIsEmpty(fields, cells);
    forall i | 0 <= i < |cells| ensures cells[i] == [] {
      assert cells[i] in cells;
    }
    assert cells == EmptyCells(|fields|);
    hide BuildRow, SliceRecord, MinFixed;
  }

  lemma {:induction false} SliceIsEmpty(fields: seq<FieldSpec>, cells: seq<bytes>)
    requires SliceRecord(fields, []) == Some(Sliced(cells, []))
    ensures (AllFixed(fields) && MinFixed(fields) == 0) ==> forall c :: c in cells ==> c == []
  {
    if fields != [] && AllFixed(fields) && MinFixed(fields) == 0 {
      MinFixedCons(fields[0], fields[1..]);
      assert [fields[0]] + fields[1..] == fields;
      var t := SliceField(fields[0], []).value;
      assert t.value == [] && t.rest == [];
      SliceIsEmpty(fields[1..], cells[1..]);
      assert forall c :: c in cells <==> c == cells[0] || c in cells[1..];
    }
  }

  /** Printed records decode to themselves, and what follows them is decoded on its own. */
  lemma {:induction false} RecordsRoundTrip(fields: seq<FieldSpec>, records: seq<seq<Cell>>, tail: bytes, ctx: Ctx)
    requires MinRecord(fields) > 0
    requires AllFit(fields, records)
    ensures DecodeRecords(fields, PrintRecords(fields, records) + tail, ctx)
         == BuiltRows(fields, records, ctx) + DecodeRecords(fields, tail, ctx)
    decreases |records|
  {
    hide BuildRow, SliceRecord, PrintRecord, MinRecord, RecordFits, DecodeRecords;
    if records == [] {
      assert PrintRecords(fields, records) + tail == tail;
    } else {
      var after := PrintRecords(fields, records[1..]) + tail;
      assert RecordFits(fields, records[0]);
      assert PrintRecords(fields, records) + tail == PrintRecord(fields, records[0]) + after;
      FirstRecord(fields, records[0], after, ctx);
      RecordsRoundTrip(fields, records[1..], tail, ctx);
    }
  }

  lemma FirstRecord(fields: seq<FieldSpec>, cells: seq<Cell>, after: bytes, ctx: Ctx)
    requires MinRecord(fields) > 0 && RecordFits(fields, cells)
    ensures DecodeRecords(fields, PrintRecord(fields, cells) + after, ctx)
         == [BuildRow(fields, Values(cells), ctx)] + DecodeRecords(fields, after, ctx)
  {
    SlicePrinted(fields, cells, after);
    PrintedSize(fields, cells);
    hide BuildRow, SliceRecord, PrintRecord, MinFixed, MinRecord, RecordFits;
  }

  /** The data round trip: one row per printed record, each built from the original field values. */
  lemma DataRoundTrip(kind: TemplateKind, fields: seq<FieldSpec>, records: seq<seq<Cell>>, ctx: Ctx, flowsOnly: bool)
    requires MinRecord(fields) > 0
    requires AllFit(fields, records)
    ensures DecodeDataSet(kind, fields, PrintRecords(fields, records), ctx, flowsOnly)
         == if flowsOnly && kind == Options then [] else BuiltRows(fields, records, ctx)
  {
    RecordsRoundTrip(fields, records, [], ctx);
    assert PrintRecords(fields, records) + [] == PrintRecords(fields, records);
  }

  /**
   * Trailing padding is invisible exactly when it is empty or shorter than the fixed part of a record. The
   * standard allows any padding shorter than a whole record, so a legal one can produce an extra row.
   */
  lemma PaddingInvisibleIff(fields: seq<FieldSpec>, records: seq<seq<Cell>>, pad: bytes, ctx: Ctx)
    requires MinRecord(fields) > 0
    requires AllFit(fields, records)
    ensures DecodeRecords(fields, PrintRecords(fields, records) + pad, ctx) == BuiltRows(fields, records, ctx)
       <==> |pad| == 0 || |pad| < MinFixed(fields)
  {
    RecordsRoundTrip(fields, records, pad, ctx);
    hide BuildRow, BuiltRows;
    var extra := DecodeRecords(fields, pad, ctx);
    assert |BuiltRows(fields, records, ctx) + extra| == |BuiltRows(fields, records, ctx)| + |extra|;
    assert BuiltRows(fields, records, ctx) + [] == BuiltRows(fields, records, ctx);
  }

  /** Legal padding that is not invisible: one zero byte after a one-octet-plus-string record. */
  lemma LegalPaddingCanTruncate(name: string, ieType: string, ctx: Ctx)
    ensures var fields := [FieldSpec(4, 0, 1, name, ieType), FieldSpec(82, 0, 0xFFFF, name, ieType)];
      && |[0 as byte]| < MinRecord(fields)
      && DecodeRecords(fields, [6, 0] + [0], ctx) == [BuildRow(fields, [[6], []], ctx), TruncatedRow(ctx)]
  {
    hide BuildRow;
    var f, g := FieldSpec(4, 0, 1, name, ieType), FieldSpec(82, 0, 0xFFFF, name, ieType);
    var fields := [f, g];
    var cells := [Cell([6], false), Cell([], false)];
    assert fields[1..] == [g] && fields[1..][1..] == [];
    assert MinRecord([g]) == 1 + MinRecord([g][1..]);
    assert MinRecord(fields) == 2;
    MinFixedCons(f, [g]);
    MinFixedCons(g, []);
    assert [f] + [g] == fields && [g] + [] == [g];
    SlicePrinted(fields, cells, [0]);
    assert cells[1..] == [cells[1]] && cells[1..][1..] == [];
    assert PrintRecord([g], [cells[1]]) == [0];
    assert PrintRecord(fields, cells) == [6, 0];
    assert Values(cells[1..]) == [[]] + Values([]);
    assert Values(cells) == [[6], []];
    var s: bytes := [0];
    assert s[..1] == [0] && s[1..] == [];
    assert SliceField(f, s) == Some(Taken([0], []));
    assert SliceRecord([g], []) == None;
    assert SliceRecord(fields, s) == None;
  }

  // Fixed layouts: the loop is integer division.

  predicate AllFixed(fields: seq<FieldSpec>) {
    forall i :: 0 <= i < |fields| ==> !fields[i].IsVariable()
  }

  lemma {:induction false} SliceFixed(fields: seq<FieldSpec>, s: bytes)
    requires AllFixed(fields)
    ensures SliceRecord(fields, s).Some? <==> MinFixed(fields) <= |s|
    ensures MinFixed(fields) <= |s| ==>
      && SliceRecord(fields, s).value.rest == s[MinFixed(fields)..]
      && SliceRecord(fields, s[..MinFixed(fields)]) == Some(Sliced(SliceRecord(fields, s).value.cells, []))
  {
    if fields != [] {
      var f, fs, n := fields[0], fields[1..], MinFixed(fields);
      MinFixedCons(f, fs);
      assert [f] + fs == fields;
      if f.length <= |s| {
        SliceFixed(fs, s[f.length..]);
        if n <= |s| {
          assert s[f.length..][MinFixed(fs)..] == s[n..];
          assert s[..n][f.length..] == s[f.length..][..MinFixed(fs)];
          assert s[..n][..f.length] == s[..f.length];
        }
      }
    }
  }

  /** Record `i` of a fixed layout, cut straight out of the payload. */
  function FixedRow(fields: seq<FieldSpec>, s: bytes, i: nat, ctx: Ctx): FlowRecord
    requires AllFixed(fields) && MinFixed(fields) * (i + 1) <= |s|
  {
    var L := MinFixed(fields);
    assert L * i + L == L * (i + 1);
    SliceFixed(fields, s[L * i..L * i + L]);
    BuildRow(fields, SliceRecord(fields, s[L * i..L * i + L]).value.cells, ctx)
  }

  lemma FixedStep(fields: seq<FieldSpec>, s: bytes, ctx: Ctx)
    requires AllFixed(fields) && 0 < MinFixed(fields) <= |s|
    ensures MinFixed(fields) * (0 + 1) == MinFixed(fields)
    ensures DecodeRecords(fields, s, ctx)
         == [FixedRow(fields, s, 0, ctx)] + DecodeRecords(fields, s[MinFixed(fields)..], ctx)
  {
    hide BuildRow;
    var L := MinFixed(fields);
    SliceFixed(fields, s);
    assert s[L * 0..L * 0 + L] == s[..L];
  }

  lemma {:induction false} FixedCount(fields: seq<FieldSpec>, s: bytes, ctx: Ctx)
    requires AllFixed(fields) && MinFixed(fields) > 0
    ensures |DecodeRecords(fields, s, ctx)| == |s| / MinFixed(fields)
    decreases |s|
  {
    DivStep(|s|, MinFixed(fields));
    if |s| >= MinFixed(fields) {
      FixedStep(fields, s, ctx);
      hide FixedRow;
      FixedCount(fields, s[MinFixed(fields)..], ctx);
    }
  }

  lemma {:induction false} FixedRowAt(fields: seq<FieldSpec>, s: bytes, i: nat, ctx: Ctx)
    requires AllFixed(fields) && MinFixed(fields) > 0
    requires i < |DecodeRecords(fields, s, ctx)|
    ensures MinFixed(fields) * (i + 1) <= |s| && DecodeRecords(fields, s, ctx)[i] == FixedRow(fields, s, i, ctx)
    decreases i
  {
    hide SliceRecord, BuildRow;
    var L := MinFixed(fields);
    FixedStep(fields, s, ctx);
    if i > 0 {
      var rest := s[L..];
      FixedRowAt(fields, rest, i - 1, ctx);
      Multiples(L, i);
      SliceShift(s, L, L * (i - 1));
    }
  }

  lemma Multiples(L: nat, i: nat)
    requires i > 0
    ensures L * (i - 1 + 1) == L * i == L * (i - 1) + L && L * (i + 1) == L * i + L && L * (i - 1) >= 0
  {
  }

  lemma SliceShift(s: bytes, L: nat, o: nat)
    requires o + L + L <= |s|
    ensures s[L..][o..o + L] == s[o + L..o + L + L]
  {
  }

  /** A purely fixed layout of length L > 0 gives exactly |payload| / L rows, row i from bytes [iL, iL + L). */
  lemma FixedSlicingIsDivision(fields: seq<FieldSpec>, s: bytes, ctx: Ctx)
    requires AllFixed(fields) && MinFixed(fields) > 0
    ensures var rows := DecodeRecords(fields, s, ctx);
      && |rows| == |s| / MinFixed(fields)
      && forall i: nat :: i < |rows| ==> InPlace(fields, s, rows, i, ctx)
  {
    FixedCount(fields, s, ctx);
    forall i: nat | i < |DecodeRecords(fields, s, ctx)|
      ensures InPlace(fields, s, DecodeRecords(fields, s, ctx), i, ctx)
    {
      FixedRowAt(fields, s, i, ctx);
    }
    hide DecodeRecords, FixedRow, InPlace;
  }

  ghost predicate InPlace(fields: seq<FieldSpec>, s: bytes, rows: seq<FlowRecord>, i: nat, ctx: Ctx)
    requires AllFixed(fields)
  {
    i < |rows| && MinFixed(fields) * (i + 1) <= |s| && rows[i] == FixedRow(fields, s, i, ctx)
  }

  lemma DivStep(n: nat, L: nat)
    requires L > 0
    ensures n < L ==> n / L == 0
    ensures n >= L ==> n / L == (n - L) / L + 1
  {
    if n < L {
      QuotientIs(n, L, 0, n);
    } else {
      QuotientIs(n, L, (n - L) / L + 1, (n - L) % L);
    }
  }

  lemma QuotientIs(n: nat, L: nat, q: nat, r: nat)
    requires 0 <= r < L && n == L * q + r
    ensures n / L == q
  {
    var d := n / L - q;
    assert L * (n / L) == L * q + L * d;
    MultipleIsFar(L, d);
  }

  lemma MultipleIsFar(L: int, d: int)
    requires L > 0
    ensures d >= 1 ==> L * d >= L
    ensures d <= -1 ==> L * d <= -L
  {
  }

  /** For any layout: at most one row per payload byte, and only the last row can be a truncation notice. */
  lemma {:induction false} RowsBounded(fields: seq<FieldSpec>, s: bytes, ctx: Ctx)
    ensures var rows := DecodeRecords(fields, s, ctx);
      && |rows| <= |s|
      && forall i :: 0 <= i < |rows| - 1 ==> Truncated !in rows[i].diagnostics
    decreases |s|
  {
    if !Stops(fields, s) {
      var r := SliceRecord(fields, s);
      if r.Some? {
        RowIdentity(fields, r.value.cells, ctx);
        if |r.value.rest| != |s| {
          RowsBounded(fields, r.value.rest, ctx);
        }
      }
      hide BuildRow;
    }
  }
}

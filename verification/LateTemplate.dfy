/** The cross-datagram scenario from bytes to rows: a data datagram first, its template in a later one. */
module LateTemplate {
  import opened Wire
  import opened Flow
  import opened CacheSpec
  import opened DataSet
  import opened Headers
  import opened Framing
  import opened Templates
  import opened Scan
  import opened Invariants
  import opened KeyView
  import opened KeyTheorems
  import opened Budget
  import opened Datagrams

  /** The header fields an exporter varies from datagram to datagram. */
  datatype Head =
    | V9Head(count: u16, uptime: u32, seconds: u32, sequence: u32)
    | IpfixHead(seconds: u32, sequence: u32)
  {
    function VersionOf(): Version {
      if V9Head? then NetflowV9 else Ipfix
    }

    function Uptime(): Option<u64> {
      if V9Head? then Some(uptime) else None
    }

    /** The context of a Data Set under this header. */
    function CtxFor(exporter: string, domain: u32, id: u16): Ctx {
      Ctx(exporter, domain, VersionOf(), Some(seconds * 1_000_000), Some(sequence), Uptime(), id)
    }
  }

  /** A datagram that can be printed: an IPFIX header declares the whole length in 16 bits. */
  predicate Fits(h: Head, sets: seq<WireSet>) {
    AllPrintable(sets) && (h.IpfixHead? ==> |Join(sets)| + 16 < TWO_16)
  }

  function Print(h: Head, domain: u32, sets: seq<WireSet>): bytes
    requires Fits(h, sets)
  {
    match h
    case V9Head(count, uptime, seconds, sequence) =>
      PrintV9Header(count, uptime, seconds, sequence, domain) + Join(sets)
    case IpfixHead(seconds, sequence) =>
      PrintIpfixHeader(|Join(sets)| + 16, seconds, sequence, domain) + Join(sets)
  }

  function FrameBy(h: Head, exporter: string, domain: u32, sets: seq<WireSet>): Frame {
    Frame(exporter, domain, h.VersionOf(), Some(h.seconds * 1_000_000), Some(h.sequence), h.Uptime(), sets)
  }

  lemma PrintedIsFramed(opts: Scan.DecodeOptions, restrict: Restrict, h: Head, domain: u32, sets: seq<WireSet>)
    requires Fits(h, sets) && restrict.Accepts(h.VersionOf())
    ensures var i := Input(Print(h, domain, sets), opts, restrict);
      && Probe(i.data) == Some(h.VersionOf())
      && InputFrame(i) == Some(FrameBy(h, opts.exporter, ScopeDomain(opts, domain), sets))
  {
    hide InputFrame, Join, PrintV9Header, PrintIpfixHeader, Probe;
    match h
    case V9Head(count, uptime, seconds, sequence) =>
      V9Framed(opts, restrict, count, uptime, seconds, sequence, domain, sets);
    case IpfixHead(seconds, sequence) =>
      IpfixFramed(opts, restrict, seconds, sequence, domain, sets, Join(sets));
  }

  function TemplateSet(t: RawTemplate, d: Dialect): WireSet
    requires TemplateOk(t, d)
  {
    WireSet(SetIdOf(d), PrintTemplates([t], d))
  }

  /** A datagram that carries only Data Sets of one template, seen from that template's key. */
  lemma DataAct(ext: Externals, i: Input, f: Frame, payload: bytes, id: u16)
    requires InputFrame(i) == Some(f) && id >= 256 && f.sets == [WireSet(id, payload)]
    ensures var key := KeyFor(f, id);
      && ActOf(ext, Datagram(i), key) == Bring([], [RecordFor(f, payload)], i.opts.mode.DropsOptions())
      && StepKeys(ext, Datagram(i)) == {} && ItemBytes(Arrivals(Datagram(i))) == |payload|
  {
    hide InputFrame, KeyFor, RecordFor;
    var s := WireSet(id, payload);
    assert [s][1..] == [];
    assert DefsOf(ext, f.version, [s]) == [] + DefsOf(ext, f.version, []);
    var item := Item(KeyFor(f, id), RecordFor(f, payload));
    assert ItemsOf(f, [s]) == [item] + ItemsOf(f, []);
    assert ItemsOf(f, [s]) == [item] && [item][1..] == [];
    RecordsForOne(item, KeyFor(f, id));
    assert item.rec.payload == payload by { PayloadKept(f, payload); }
  }

  lemma PayloadKept(f: Frame, payload: bytes)
    ensures RecordFor(f, payload).payload == payload
  {
  }

  /** A datagram that carries only one template, seen from its key. */
  lemma TemplateAct(ext: Externals, i: Input, f: Frame, t: RawTemplate, d: Dialect)
    requires InputFrame(i) == Some(f) && Speaks(f, d) && TemplateOk(t, d) && f.sets == [TemplateSet(t, d)]
    ensures var key := KeyFor(f, t.id);
      && ActOf(ext, Datagram(i), key)
         == Bring([LayoutBy(Resolve(ext, t, d))], [], i.opts.mode.DropsOptions())
      && StepKeys(ext, Datagram(i)) == {key} && ItemBytes(Arrivals(Datagram(i))) == 0
  {
    var s, def, key := f.sets[0], Resolve(ext, t, d), KeyFor(f, t.id);
    assert def.id == t.id && s.id < 256;
    hide InputFrame, Parse, PrintTemplates, Resolve, TemplateOk;
    OneTemplateSet(ext, f.version, d, t);
    OneSet(ext, f, s, def);
    KeyForIs(f, t.id);
    OneDefFor(def, f, key);
    hide KeyFor, SetDefs, TemplateSet, DefsFor, ItemsOf, DefsOf, DefKeys;
  }

  lemma OneSet(ext: Externals, f: Frame, s: WireSet, def: TemplateDef)
    requires f.sets == [s] && s.id < 256 && SetDefs(ext, f.version, s) == [def]
    ensures DefsOf(ext, f.version, f.sets) == [def] && ItemsOf(f, f.sets) == []
  {
    assert [s][1..] == [];
    assert DefsOf(ext, f.version, [s]) == [def] + DefsOf(ext, f.version, []);
    assert ItemsOf(f, [s]) == [] + ItemsOf(f, []);
    hide SetDefs;
  }

  lemma OneDefFor(def: TemplateDef, f: Frame, key: TemplateKey)
    requires key == TemplateKey(f.exporter, f.domain, def.id)
    ensures DefsFor([def], f.exporter, f.domain, key) == [LayoutBy(def)]
    ensures DefKeys(f.exporter, f.domain, [def]) == {key}
  {
    assert [def][1..] == [];
    assert DefsFor([def], f.exporter, f.domain, key) == [LayoutBy(def)] + DefsFor([], f.exporter, f.domain, key);
  }

  /** One buffered record, decoded when the layout comes. */
  lemma QueueThenDecode(key: TemplateKey, rec: PendingRecord, l: Layout, fo1: bool, fo: bool)
    ensures RowsOf(KeyRun(key, KeyState(None, []), [Bring([], [rec], fo1), Bring([l], [], fo)]).events)
         == DecodeDataSet(l.kind, l.fields, rec.payload, DeferredCtx(Item(key, rec)), fo)
    ensures KeyRun(key, KeyState(None, []), [Bring([], [rec], fo1), Bring([l], [], fo)]).state == KeyState(Some(l), [])
  {
    hide DecodeDataSet, DeferredCtx;
    var data, t := Bring([], [rec], fo1), Bring([l], [], fo);
    assert OnlyData([data], fo1);
    DataWaits(key, [], [data], fo1);
    assert [data][1..] == [] && AllRecords([data]) == [rec] + AllRecords([]);
    assert [] + [rec] == [rec];
    TemplateStepRows(key, [rec], t);
    OneAct(key, KeyState(None, [rec]), t);
    KeyRunConcat(key, KeyState(None, []), [data], [t]);
    assert [data] + [t] == [data, t];
    var last := KeyStep(key, KeyState(None, [rec]), t).events;
    assert [] + last == last;
    assert t.records + [rec] == [rec] && [rec][1..] == [];
    hide KeyStep, KeyRun, RowsOf;
    var rows := DecodeDataSet(l.kind, l.fields, rec.payload, DeferredCtx(Item(key, rec)), fo);
    assert PayloadRows(key, [rec], l, fo) == rows + PayloadRows(key, [], l, fo);
    assert rows + [] == rows;
  }

  /**
   * Data first, template later. From a cold start, a printed data datagram for a template not yet seen, followed by
   * a datagram that defines it, yields for that key exactly the printed records, under the context of the data
   * datagram's header, and nothing stays buffered for it. Either datagram may be v9 or IPFIX, and the template plain
   * or an options template; options records are dropped if the mode of the second datagram says so. The two headers
   * may name different domains, as long as both datagrams count under one.
   */
  lemma DataBeforeTemplate(
    ext: Externals, opts1: Scan.DecodeOptions, opts2: Scan.DecodeOptions, restrict: Restrict, h1: Head, h2: Head,
    domain1: u32, domain2: u32, t: RawTemplate, d: Dialect, def: TemplateDef, records: seq<seq<Cell>>, payload: bytes,
    late: bytes, template: bytes)
    requires opts1.exporter == opts2.exporter && ScopeDomain(opts1, domain1) == ScopeDomain(opts2, domain2)
    requires restrict.Accepts(h1.VersionOf()) && restrict.Accepts(h2.VersionOf()) && (h2.IpfixHead? <==> IsIpfix(d))
    requires TemplateOk(t, d) && t.id >= 256 && def == Resolve(ext, t, d) && MinRecord(def.fields) > 0
    requires AllFit(def.fields, records) && payload == PrintRecords(def.fields, records)
    requires Fits(h1, [WireSet(t.id, payload)]) && late == Print(h1, domain1, [WireSet(t.id, payload)])
    requires Fits(h2, [TemplateSet(t, d)]) && template == Print(h2, domain2, [TemplateSet(t, d)])
    ensures var i, j := Datagram(Input(late, opts1, restrict)), Datagram(Input(template, opts2, restrict));
      var domain, o := ScopeDomain(opts1, domain1), Run(ext, EmptyCache(), [i, j]);
      var key, ctx := TemplateKey(opts1.exporter, domain, t.id), h1.CtxFor(opts1.exporter, domain, t.id);
      && RowsOf(EventsFor(o.events, key)) == PrintedRows(def, records, ctx, opts2.mode == FlowsOnly)
      && key in o.cache.entries && key !in o.cache.pending
  {
    hide PrintRecords, BuiltRows, MinRecord, AllFit, Resolve, TemplateOk, InputFrame,
      Print, Run, KeyRun, EventsFor, ActOf, StepKeys, Arrivals, RowsOf, DecodeDataSet, Valid, Fits, TemplateSet;
    var i, j := Input(late, opts1, restrict), Input(template, opts2, restrict);
    var dataSets, templateSets := [WireSet(t.id, payload)], [TemplateSet(t, d)];
    var domain := ScopeDomain(opts1, domain1);
    PrintedIsFramed(opts1, restrict, h1, domain1, dataSets);
    PrintedIsFramed(opts2, restrict, h2, domain2, templateSets);
    var f, g := FrameBy(h1, opts1.exporter, domain, dataSets), FrameBy(h2, opts2.exporter, domain, templateSets);
    var key := TemplateKey(opts1.exporter, domain, t.id);
    DataAct(ext, i, f, payload, t.id);
    TemplateAct(ext, j, g, t, d);
    TwoSteps(ext, Datagram(i), Datagram(j), key);
    EmptyIsValid();
    var rec := RecordFor(f, payload);
    PayloadSmall(h1, t.id, payload);
    WithinBudgetFits(ext, EmptyCache(), [Datagram(i), Datagram(j)]);
    RunRefines(ext, EmptyCache(), [Datagram(i), Datagram(j)], key);
    QueueThenDecode(key, rec, LayoutBy(def), opts1.mode.DropsOptions(), opts2.mode.DropsOptions());
    RunKeeps(ext, EmptyCache(), [Datagram(i), Datagram(j)]);
    DataRoundTrip(def.kind, def.fields, records, DeferredCtx(Item(key, rec)), opts2.mode.DropsOptions());
  }

  lemma PayloadSmall(h: Head, id: u16, payload: bytes)
    requires Fits(h, [WireSet(id, payload)])
    ensures |payload| < TWO_16
  {
    assert Printable([WireSet(id, payload)][0]);
  }

  lemma TwoSteps(ext: Externals, d: Step, u: Step, key: TemplateKey)
    ensures ActsOf(ext, [d, u], key) == [ActOf(ext, d, key), ActOf(ext, u, key)]
    ensures RunKeys(ext, [d, u]) == StepKeys(ext, d) + StepKeys(ext, u)
    ensures RunBytes([d, u]) == ItemBytes(Arrivals(d)) + ItemBytes(Arrivals(u))
  {
    hide ActOf, StepKeys, Arrivals, ItemBytes;
    assert [d, u][1..] == [u] && [u][1..] == [];
    assert ActsOf(ext, [], key) == [] && RunKeys(ext, []) == {} && RunBytes([]) == 0;
    assert ActsOf(ext, [u], key) == [ActOf(ext, u, key)] + ActsOf(ext, [], key);
    assert RunKeys(ext, [u]) == StepKeys(ext, u) + RunKeys(ext, []);
    assert RunBytes([u]) == ItemBytes(Arrivals(u)) + RunBytes([]);
  }

  /** A key without a layout: two records wait, and a flush gives both up under the first one's version. */
  lemma TwoGivenUp(key: TemplateKey, a: PendingRecord, b: PendingRecord, fo1: bool, fo2: bool)
    requires a.version == NetflowV9
    ensures var acts := [Bring([], [a], fo1), Bring([], [b], fo2), GiveUp];
      KeyRun(key, KeyState(None, []), acts)
      == KeyOutcome(KeyState(None, []), FlushRecords(key, [a, b], NetflowV9))
  {
    hide FlushRecords;
    var x, y := Bring([], [a], fo1), Bring([], [b], fo2);
    assert [x, y, GiveUp][1..] == [y, GiveUp] && [y, GiveUp][1..] == [GiveUp] && [GiveUp][1..] == [];
    assert [] + [a] == [a] && [a] + [b] == [a, b];
    OneAct(key, KeyState(None, [a, b]), GiveUp);
    var last := FlushRecords(key, [a, b], NetflowV9);
    assert [] + ([] + last) == last;
  }

  /** A row that names the missing template under a printed header. */
  predicate ReportsUnder(r: FlowRecord, h: Head, version: Version, exporter: string, domain: u32, id: u16) {
    Reports(r, exporter, Some(version), domain, Some(h.seconds * 1_000_000), Some(h.sequence),
      MissingTemplate(domain, id))
  }

  /**
   * A scan whose flush mislabels: a printed v9 datagram and then a printed IPFIX one, each with a Data Set for the
   * same exporter, domain and unknown id. Both are reported, each under its own header, but both as v9.
   */
  lemma FlushMislabels(
    ext: Externals, opts: Scan.DecodeOptions, h1: Head, h2: Head, domain: u32, id: u16, x: bytes, y: bytes)
    requires id >= 256 && h1.V9Head? && h2.IpfixHead?
    requires Fits(h1, [WireSet(id, x)]) && Fits(h2, [WireSet(id, y)])
    ensures var i, j := Input(Print(h1, domain, [WireSet(id, x)]), opts, Any),
                        Input(Print(h2, domain, [WireSet(id, y)]), opts, Any);
      var scope, o := ScopeDomain(opts, domain), Run(ext, EmptyCache(), [Datagram(i), Datagram(j), Flush]);
      var rows := RowsOf(EventsFor(o.events, TemplateKey(opts.exporter, scope, id)));
      && Probe(i.data) == Some(NetflowV9) && Probe(j.data) == Some(Ipfix)
      && |rows| == 2
      && ReportsUnder(rows[0], h1, NetflowV9, opts.exporter, scope, id)
      && ReportsUnder(rows[1], h2, NetflowV9, opts.exporter, scope, id)
  {
    hide Print, InputFrame, Run, KeyRun, EventsFor, ActOf, StepKeys, Arrivals, RowsOf, Valid, Fits, Probe, MissingRow,
      FlushRecords, Reports;
    var first, second := [WireSet(id, x)], [WireSet(id, y)];
    var i, j := Input(Print(h1, domain, first), opts, Any), Input(Print(h2, domain, second), opts, Any);
    PrintedIsFramed(opts, Any, h1, domain, first);
    PrintedIsFramed(opts, Any, h2, domain, second);
    var scope := ScopeDomain(opts, domain);
    var f, g := FrameBy(h1, opts.exporter, scope, first), FrameBy(h2, opts.exporter, scope, second);
    var key, d, e := TemplateKey(opts.exporter, scope, id), Datagram(i), Datagram(j);
    DataAct(ext, i, f, x, id);
    DataAct(ext, j, g, y, id);
    ThreeSteps(ext, d, e, Flush, key);
    FlushBringsNothing(ext, key);
    EmptyIsValid();
    PayloadSmall(h1, id, x);
    PayloadSmall(h2, id, y);
    WithinBudgetFits(ext, EmptyCache(), [d, e, Flush]);
    RunRefines(ext, EmptyCache(), [d, e, Flush], key);
    var a, b := RecordFor(f, x), RecordFor(g, y);
    TwoGivenUp(key, a, b, opts.mode.DropsOptions(), opts.mode.DropsOptions());
    FlushedRows(key, [a, b], NetflowV9);
  }

  /**
   * A Data Set whose template never comes: after the flush, one row for its key, with the version, time and sequence
   * of its header, its domain and its template id, and nothing else.
   */
  lemma MissingTemplateIsReported(
    ext: Externals, opts: Scan.DecodeOptions, restrict: Restrict, h: Head, domain: u32, id: u16, x: bytes)
    requires restrict.Accepts(h.VersionOf()) && id >= 256 && Fits(h, [WireSet(id, x)])
    ensures var i := Input(Print(h, domain, [WireSet(id, x)]), opts, restrict);
      var scope, o := ScopeDomain(opts, domain), Run(ext, EmptyCache(), [Datagram(i), Flush]);
      var rows := RowsOf(EventsFor(o.events, TemplateKey(opts.exporter, scope, id)));
      |rows| == 1 && ReportsUnder(rows[0], h, h.VersionOf(), opts.exporter, scope, id)
  {
    hide Print, InputFrame, Run, KeyRun, EventsFor, ActOf, StepKeys, Arrivals, RowsOf, Valid, Fits, Probe, MissingRow,
      FlushRecords, Reports;
    var sets, scope := [WireSet(id, x)], ScopeDomain(opts, domain);
    var i := Input(Print(h, domain, sets), opts, restrict);
    PrintedIsFramed(opts, restrict, h, domain, sets);
    var f := FrameBy(h, opts.exporter, scope, sets);
    var key, d, a := TemplateKey(opts.exporter, scope, id), Datagram(i), RecordFor(f, x);
    DataAct(ext, i, f, x, id);
    TwoSteps(ext, d, Flush, key);
    FlushBringsNothing(ext, key);
    EmptyIsValid();
    PayloadSmall(h, id, x);
    WithinBudgetFits(ext, EmptyCache(), [d, Flush]);
    RunRefines(ext, EmptyCache(), [d, Flush], key);
    OneGivenUp(key, a, opts.mode.DropsOptions());
    FlushedRows(key, [a], h.VersionOf());
  }

  lemma OneGivenUp(key: TemplateKey, a: PendingRecord, fo: bool)
    requires a.version in {NetflowV9, Ipfix}
    ensures KeyRun(key, KeyState(None, []), [Bring([], [a], fo), GiveUp])
         == KeyOutcome(KeyState(None, []), FlushRecords(key, [a], a.version))
  {
    hide FlushRecords;
    var x := Bring([], [a], fo);
    assert [x, GiveUp][1..] == [GiveUp] && [] + [a] == [a];
    OneAct(key, KeyState(None, [a]), GiveUp);
    assert [] + FlushRecords(key, [a], a.version) == FlushRecords(key, [a], a.version);
  }

  lemma FlushBringsNothing(ext: Externals, key: TemplateKey)
    ensures ActOf(ext, Flush, key) == GiveUp && StepKeys(ext, Flush) == {} && ItemBytes(Arrivals(Flush)) == 0
  {
  }

  lemma ThreeSteps(ext: Externals, d: Step, e: Step, u: Step, key: TemplateKey)
    ensures ActsOf(ext, [d, e, u], key) == [ActOf(ext, d, key), ActOf(ext, e, key), ActOf(ext, u, key)]
    ensures RunKeys(ext, [d, e, u]) == StepKeys(ext, d) + StepKeys(ext, e) + StepKeys(ext, u)
    ensures RunBytes([d, e, u]) == ItemBytes(Arrivals(d)) + ItemBytes(Arrivals(e)) + ItemBytes(Arrivals(u))
  {
    TwoSteps(ext, e, u, key);
    assert [d, e, u][1..] == [e, u];
    hide ActOf, StepKeys, Arrivals, ItemBytes;
    assert ActsOf(ext, [d, e, u], key) == [ActOf(ext, d, key)] + ActsOf(ext, [e, u], key);
  }
}

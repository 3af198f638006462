/**
 * The template-stateful scan: what one datagram, one retry, one flush does to the cache and what rows it emits.
 * Rows are emitted by events that name the Data Set they settle, so that Data Sets can be followed through a run.
 */
module Scan {
  import opened Wire
  import opened Flow
  import opened KeyOrder
  import opened CacheSpec
  import opened DataSet
  import opened Headers
  import opened Framing
  import opened Templates
  import V5

  datatype Mode = Auto | FlowsOnly | All {
    predicate DropsOptions() {
      FlowsOnly?
    }
  }

  datatype Restrict = Any | NetflowOnly | IpfixOnly | SflowOnly {
    predicate Accepts(v: Version) {
      match this
      case Any => true
      case NetflowOnly => v.NetflowV5? || v.NetflowV9?
      case IpfixOnly => v.Ipfix?
      case SflowOnly => v.Sflow5?
    }
  }

  datatype DecodeOptions = DecodeOptions(exporter: string, domainOverride: Option<u32>, mode: Mode, now: i64)

  datatype Input = Input(data: bytes, opts: DecodeOptions, restrict: Restrict)

  /** A v9 or IPFIX datagram whose header parsed and whose Sets split. */
  datatype Frame = Frame(
    exporter: string,
    domain: u32,
    version: Version,
    exportTime: Option<i64>,
    sequence: Option<u64>,
    sysUptime: Option<u64>,
    sets: seq<WireSet>)

  datatype FrameResult = Framed(frame: Frame) | Rejected(row: FlowRecord)

  /** A Data Set on its way through the scan: its key and all the context that would be buffered with it. */
  datatype Item = Item(key: TemplateKey, rec: PendingRecord)

  datatype Fate = Decoded | Refused | Retried | Flushed

  /** The part of a cache entry that decoding uses. */
  datatype Layout = Layout(kind: TemplateKind, fields: seq<FieldSpec>)

  function LayoutOf(m: Entries, key: TemplateKey): Option<Layout> {
    if key in m then Some(Layout(m[key].kind, m[key].fields)) else None
  }

  /** Rows emitted for one Data Set, or rows that belong to none. */
  datatype Event = Settled(item: Item, fate: Fate, rows: seq<FlowRecord>) | Direct(rows: seq<FlowRecord>)

  datatype Outcome = Outcome(cache: CacheState, events: seq<Event>)

  function RowsOf(events: seq<Event>): seq<FlowRecord> {
    if events == [] then [] else events[0].rows + RowsOf(events[1..])
  }

  lemma {:induction false} RowsOfConcat(a: seq<Event>, b: seq<Event>)
    ensures RowsOf(a + b) == RowsOf(a) + RowsOf(b)
  {
    if a == [] {
      assert a + b == b;
    } else {
      assert (a + b)[1..] == a[1..] + b;
      RowsOfConcat(a[1..], b);
    }
  }

  // One datagram.

  function HeaderSize(v: Version): nat {
    if v.NetflowV9? then 20 else 16
  }

  function FrameOf(v: Version, d: bytes, opts: DecodeOptions): FrameResult
    requires v.NetflowV9? || v.Ipfix?
  {
    var h := ParseHeader(d);
    if h.None? then Rejected(Diagnostic(opts.exporter, Some(v), 0, None, None, BadHeader(v)))
    else
      var hdr := h.value;
      var own := if hdr.domain.Some? then hdr.domain.value else 0;
      var domain := if opts.domainOverride.Some? then opts.domainOverride.value else own;
      var start := if HeaderSize(v) <= |d| then HeaderSize(v) else |d|;
      var sp := SplitSets(d[start..]);
      if sp.None? then
        Rejected(Diagnostic(opts.exporter, Some(v), domain, hdr.exportTime, hdr.sequence, BadSets(v)))
      else
        var uptime: Option<u64> := if v.NetflowV9? && hdr.sysUptime.Some? then Some(hdr.sysUptime.value) else None;
        Framed(Frame(opts.exporter, domain, v, hdr.exportTime, hdr.sequence, uptime, sp.value.sets))
  }

  function DialectOf(v: Version, id: u16): Option<Dialect> {
    match v
    case NetflowV9 => if id == 0 then Some(V9Data) else if id == 1 then Some(V9Options) else None
    case Ipfix => if id == 2 then Some(IpfixData) else if id == 3 then Some(IpfixOptions) else None
    case _ => None
  }

  function SetDefs(ext: Externals, v: Version, s: WireSet): seq<TemplateDef> {
    var d := DialectOf(v, s.id);
    if d.None? then [] else Parse(ext, s.body, d.value)
  }

  /** Every template defined by a list of Sets, in order. */
  function DefsOf(ext: Externals, v: Version, sets: seq<WireSet>): seq<TemplateDef> {
    if sets == [] then [] else SetDefs(ext, v, sets[0]) + DefsOf(ext, v, sets[1..])
  }

  function KeyFor(f: Frame, id: u16): TemplateKey {
    TemplateKey(f.exporter, f.domain, id)
  }

  /** What is buffered for a Data Set that has to wait. */
  function RecordFor(f: Frame, body: bytes): PendingRecord {
    PendingRecord(f.exportTime, f.sequence, f.version, f.sysUptime, body)
  }

  /** The context of immediate decoding, built from the header. */
  function DirectCtx(f: Frame, id: u16): Ctx {
    Ctx(f.exporter, f.domain, f.version, f.exportTime, f.sequence, f.sysUptime, id)
  }

  /** The context of deferred decoding, rebuilt from the key and the buffered record. */
  function DeferredCtx(i: Item): Ctx {
    Ctx(i.key.exporter, i.key.domain, if i.rec.version.Ipfix? then Ipfix else NetflowV9, i.rec.exportTime,
      i.rec.sequence, i.rec.sysUptime, i.key.templateId)
  }

  function MissingRow(key: TemplateKey, version: Version, rec: PendingRecord): FlowRecord {
    Diagnostic(key.exporter, Some(version), key.domain, rec.exportTime, rec.sequence,
      MissingTemplate(key.domain, key.templateId))
  }

  function DecodeWith(e: TemplateEntry, payload: bytes, ctx: Ctx, flowsOnly: bool): seq<FlowRecord> {
    DecodeDataSet(e.kind, e.fields, payload, ctx, flowsOnly)
  }

  /** One Set of the second pass: decode it, buffer it, or refuse it with a missing-template row. */
  function Arrive(c: CacheState, f: Frame, s: WireSet, now: i64, flowsOnly: bool): Outcome {
    if s.id < 256 then Outcome(c, [])
    else
      var key, rec := KeyFor(f, s.id), RecordFor(f, s.body);
      if key in c.entries then
        var c' := Use(c, key, now);
        Outcome(c',
          [Settled(Item(key, rec), Decoded, DecodeWith(c'.entries[key], s.body, DirectCtx(f, s.id), flowsOnly))])
      else if CanPush(c, rec) then Outcome(Push(c, key, rec), [])
      else Outcome(c, [Settled(Item(key, rec), Refused, [MissingRow(key, f.version, rec)])])
  }

  function ArriveAll(c: CacheState, f: Frame, sets: seq<WireSet>, now: i64, flowsOnly: bool): Outcome
    decreases |sets|
  {
    if sets == [] then Outcome(c, [])
    else
      var one := Arrive(c, f, sets[0], now, flowsOnly);
      var more := ArriveAll(one.cache, f, sets[1..], now, flowsOnly);
      Outcome(more.cache, one.events + more.events)
  }

  /** Both passes over a datagram: all templates first, then all Data Sets. */
  ghost function DecodeFrame(ext: Externals, c: CacheState, f: Frame, now: i64, flowsOnly: bool): Outcome {
    ArriveAll(Learn(c, f.exporter, f.domain, DefsOf(ext, f.version, f.sets), now), f, f.sets, now, flowsOnly)
  }

  function Settle(key: TemplateKey, recs: seq<PendingRecord>, e: TemplateEntry, flowsOnly: bool): seq<Event> {
    if recs == [] then []
    else
      [Settled(Item(key, recs[0]), Retried,
         DecodeWith(e, recs[0].payload, DeferredCtx(Item(key, recs[0])), flowsOnly))]
      + Settle(key, recs[1..], e, flowsOnly)
  }

  function RetryKey(c: CacheState, key: TemplateKey, now: i64, flowsOnly: bool): Outcome {
    if key !in c.entries then Outcome(c, [])
    else
      var c' := Use(c, key, now);
      Outcome(Take(c', key), Settle(key, WaitingAt(c'.pending, key), c'.entries[key], flowsOnly))
  }

  function RetryKeys(c: CacheState, keys: seq<TemplateKey>, now: i64, flowsOnly: bool): Outcome
    decreases |keys|
  {
    if keys == [] then Outcome(c, [])
    else
      var one := RetryKey(c, keys[0], now, flowsOnly);
      var more := RetryKeys(one.cache, keys[1..], now, flowsOnly);
      Outcome(more.cache, one.events + more.events)
  }

  ghost function Retry(c: CacheState, now: i64, flowsOnly: bool): Outcome {
    RetryKeys(c, SortedKeys(c.pending.Keys), now, flowsOnly)
  }

  ghost function DecodeByVersion(ext: Externals, c: CacheState, i: Input): Outcome {
    var flowsOnly := i.opts.mode.DropsOptions();
    match Probe(i.data)
    case None => Outcome(c, [Direct([Diagnostic(i.opts.exporter, None, 0, None, None, NotAFlowDatagram)])])
    case Some(v) =>
      if !i.restrict.Accepts(v) then
        Outcome(c, [Direct([Diagnostic(i.opts.exporter, Some(v), 0, None, None, NotAcceptedHere(v))])])
      else
        match v
        case NetflowV5 => Outcome(c, [Direct(V5.Decode(i.data, i.opts.exporter))])
        case Sflow5 => Outcome(c, [Direct(ext.sflow(i.data, i.opts.exporter, flowsOnly))])
        case _ =>
          match FrameOf(v, i.data, i.opts)
          case Rejected(row) => Outcome(c, [Direct([row])])
          case Framed(f) => DecodeFrame(ext, c, f, i.opts.now, flowsOnly)
  }

  /** The retry follows every datagram that looks like v9 or IPFIX, accepted or not. */
  ghost function DecodeDatagram(ext: Externals, c: CacheState, i: Input): Outcome {
    var o := DecodeByVersion(ext, c, i);
    if Probe(i.data) in {Some(NetflowV9), Some(Ipfix)} && o.cache.pending != map[] then
      var r := Retry(o.cache, i.opts.now, i.opts.mode.DropsOptions());
      Outcome(r.cache, o.events + r.events)
    else o
  }

  // The end-of-scan flush.

  /** The label of a flushed key comes from its first record. */
  function FlushVersion(recs: seq<PendingRecord>): Version {
    if recs != [] && recs[0].version.Ipfix? then Ipfix else NetflowV9
  }

  function FlushRecords(key: TemplateKey, recs: seq<PendingRecord>, version: Version): seq<Event> {
    if recs == [] then []
    else
      [Settled(Item(key, recs[0]), Flushed, [MissingRow(key, version, recs[0])])]
      + FlushRecords(key, recs[1..], version)
  }

  function FlushPairs(ps: seq<(TemplateKey, seq<PendingRecord>)>): seq<Event> {
    if ps == [] then []
    else FlushRecords(ps[0].0, ps[0].1, FlushVersion(ps[0].1)) + FlushPairs(ps[1..])
  }

  ghost function FlushPending(c: CacheState): Outcome {
    Outcome(Drain(c), FlushPairs(PairUp(c.pending, SortedKeys(c.pending.Keys))))
  }

  // Runs.

  datatype Step = Datagram(input: Input) | Rehydrate | Flush

  ghost function DoStep(ext: Externals, c: CacheState, s: Step): Outcome {
    match s
    case Datagram(i) => DecodeDatagram(ext, c, i)
    case Rehydrate => Outcome(FromDto(ToDto(c)), [])
    case Flush => FlushPending(c)
  }

  ghost function Run(ext: Externals, c: CacheState, steps: seq<Step>): Outcome
    decreases |steps|
  {
    if steps == [] then Outcome(c, [])
    else
      var one := DoStep(ext, c, steps[0]);
      var more := Run(ext, one.cache, steps[1..]);
      Outcome(more.cache, one.events + more.events)
  }

  /** The frame an input contributes, if it is an accepted v9 or IPFIX datagram that splits cleanly. */
  function InputFrame(i: Input): Option<Frame> {
    var v := Probe(i.data);
    if v.None? || !i.restrict.Accepts(v.value) || !(v.value.NetflowV9? || v.value.Ipfix?) then None
    else
      match FrameOf(v.value, i.data, i.opts)
      case Rejected(_) => None
      case Framed(f) => Some(f)
  }

  /** The two kinds of datagram: those that reach the template engine and those that leave the cache alone. */
  lemma ByVersion(ext: Externals, c: CacheState, i: Input)
    ensures var o := DecodeByVersion(ext, c, i);
      if InputFrame(i).Some?
      then o == DecodeFrame(ext, c, InputFrame(i).value, i.opts.now, i.opts.mode.DropsOptions())
        && Probe(i.data) in {Some(NetflowV9), Some(Ipfix)}
      else o.cache == c && |o.events| == 1 && o.events[0].Direct?
    ensures InputFrame(i).None? ==> DecodeByVersion(ext, c, i).events == DecodeByVersion(ext, EmptyCache(), i).events
  {
    hide Probe, FrameOf, V5.Decode, DecodeFrame;
  }

  function ItemOf(f: Frame, s: WireSet): seq<Item> {
    if s.id < 256 then [] else [Item(KeyFor(f, s.id), RecordFor(f, s.body))]
  }

  /** The Data Sets of a list of Sets, as items. */
  function ItemsOf(f: Frame, sets: seq<WireSet>): seq<Item> {
    if sets == [] then []
    else ItemOf(f, sets[0]) + ItemsOf(f, sets[1..])
  }

  predicate SmallBodies(sets: seq<WireSet>) {
    forall s :: s in sets ==> |s.body| < TWO_16
  }

  /** Set bodies are under 65536 bytes, so the 32-bit casts of their lengths are exact. */
  lemma FrameBodiesSmall(i: Input)
    requires InputFrame(i).Some?
    ensures SmallBodies(InputFrame(i).value.sets)
    ensures InputFrame(i).value.version in {NetflowV9, Ipfix}
  {
    var v := Probe(i.data).value;
    var start := if HeaderSize(v) <= |i.data| then HeaderSize(v) else |i.data|;
    SplitIsExact(i.data[start..]);
    hide SplitSets, Join, Probe, ParseHeader;
  }
}

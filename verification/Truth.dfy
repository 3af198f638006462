/** What each event of a run may say: its rows traced to the layout in force for the Data Set it names. */
module Truth {
  import opened Wire
  import opened Flow
  import opened KeyOrder
  import opened CacheSpec
  import opened DataSet
  import opened Headers
  import opened Framing
  import opened Templates
  import opened Scan

  /** The last layout defined for each key. It is a function of the input: evictions do not enter into it. */
  type Layouts = map<TemplateKey, Layout>

  function LayoutsOf(m: Entries): Layouts {
    map k | k in m :: Layout(m[k].kind, m[k].fields)
  }

  function Redefine(h: Layouts, exporter: string, domain: u32, defs: seq<TemplateDef>): Layouts
    decreases |defs|
  {
    if defs == [] then h
    else
      Redefine(h[TemplateKey(exporter, domain, defs[0].id) := Layout(defs[0].kind, defs[0].fields)], exporter, domain,
        defs[1..])
  }

  /** The layouts in force once a step's own templates are read. */
  function InForce(ext: Externals, h: Layouts, s: Step): Layouts {
    if !HasSets(s) then h
    else
      var f := InputFrame(s.input).value;
      Redefine(h, f.exporter, f.domain, DefsOf(ext, f.version, f.sets))
  }

  predicate HasSets(s: Step) {
    s.Datagram? && InputFrame(s.input).Some?
  }

  /**
   * What an event is judged by: the layouts in force, the keys cached after the step, what waited before it, and the
   * buffer room that its arrivals leave.
   */
  datatype Scene = Scene(
    layouts: Layouts, known: set<TemplateKey>, waiting: Pending, room: int, flowsOnly: bool, framed: bool)

  /** A row that names the template a Data Set missed, under the Data Set's own header, and holds nothing else. */
  predicate ReportsMissing(r: FlowRecord, key: TemplateKey, version: Version, rec: PendingRecord) {
    Reports(r, key.exporter, Some(version), key.domain, rec.exportTime, rec.sequence,
      MissingTemplate(key.domain, key.templateId))
  }

  lemma MissingRowReports(key: TemplateKey, version: Version, rec: PendingRecord)
    ensures ReportsMissing(MissingRow(key, version, rec), key, version, rec)
  {
    DiagnosticReports(key.exporter, Some(version), key.domain, rec.exportTime, rec.sequence,
      MissingTemplate(key.domain, key.templateId));
    hide Diagnostic, Reports;
  }

  ghost predicate Truthful(e: Event, t: Scene) {
    match e
    case Direct(_) => !t.framed
    case Settled(i, fate, rows) =>
      match fate
      case Decoded | Retried =>
        && i.key in t.known && i.key in t.layouts
        && var l := t.layouts[i.key];
           rows == DecodeDataSet(l.kind, l.fields, i.rec.payload, DeferredCtx(i), t.flowsOnly)
      case Refused =>
        && i.key !in t.known && |i.rec.payload| > t.room
        && |rows| == 1 && ReportsMissing(rows[0], i.key, i.rec.version, i.rec)
      case Flushed =>
        var recs := WaitingAt(t.waiting, i.key);
        i.rec in recs && |rows| == 1 && ReportsMissing(rows[0], i.key, FlushVersion(recs), i.rec)
  }

  ghost predicate AllTruthful(events: seq<Event>, t: Scene) {
    forall e :: e in events ==> Truthful(e, t)
  }

  /** Every cached layout is the last one defined for its key. */
  ghost predicate Current(m: Entries, h: Layouts) {
    forall k :: k in m ==> k in h && h[k] == Layout(m[k].kind, m[k].fields)
  }

  lemma {:induction false} LearnIsCurrent(
    c: CacheState, h: Layouts, exporter: string, domain: u32, defs: seq<TemplateDef>, now: i64)
    requires Current(c.entries, h)
    ensures Current(Learn(c, exporter, domain, defs, now).entries, Redefine(h, exporter, domain, defs))
    decreases |defs|
  {
    if defs != [] {
      var k, e := TemplateKey(exporter, domain, defs[0].id), EntryOf(defs[0], now);
      assert Current(Upsert(c, k, e).entries, h[k := Layout(e.kind, e.fields)]);
      LearnIsCurrent(Upsert(c, k, e), h[k := Layout(e.kind, e.fields)], exporter, domain, defs[1..], now);
      hide Evict, Inherit;
    }
  }

  lemma UseIsCurrent(c: CacheState, h: Layouts, key: TemplateKey, now: i64)
    requires Current(c.entries, h)
    ensures Current(Use(c, key, now).entries, h) && Use(c, key, now).entries.Keys == c.entries.Keys
    ensures key in c.entries ==>
      key in h && LayoutOf(Use(c, key, now).entries, key) == Some(h[key])
  {
  }

  /** The header context survives the round through the buffer: both ways of decoding use the same one. */
  lemma DeferredIsDirect(f: Frame, s: WireSet)
    requires f.version in {NetflowV9, Ipfix}
    ensures DeferredCtx(Item(KeyFor(f, s.id), RecordFor(f, s.body))) == DirectCtx(f, s.id)
  {
  }

  /** Bytes of the cap that the counter leaves. */
  function Room(c: CacheState): int {
    c.capPendingBytes - c.pendingBytes
  }

  /** With the largest cap nothing is refused; with any other, arrivals only use up room. */
  lemma ArriveUsesRoom(c: CacheState, f: Frame, s: WireSet, now: i64, fo: bool)
    ensures var o := Arrive(c, f, s, now, fo);
      && o.cache.capPendingBytes == c.capPendingBytes
      && (c.capPendingBytes < TWO_32 - 1 ==> Room(o.cache) <= Room(c))
    ensures !CanPush(c, RecordFor(f, s.body)) ==> c.capPendingBytes < TWO_32 - 1 && |s.body| > Room(c)
  {
    hide DecodeDataSet, MissingRow, Touch;
    var cost := |s.body| % TWO_32;
    assert cost <= |s.body| && RecordFor(f, s.body).payload == s.body;
    if CanPush(c, RecordFor(f, s.body)) && c.capPendingBytes < TWO_32 - 1 {
      SmallMod(c.pendingBytes + cost);
    }
  }

  lemma {:induction false} ArriveAllUsesRoom(c: CacheState, f: Frame, sets: seq<WireSet>, now: i64, fo: bool)
    ensures var o := ArriveAll(c, f, sets, now, fo);
      && o.cache.capPendingBytes == c.capPendingBytes
      && (c.capPendingBytes < TWO_32 - 1 ==> Room(o.cache) <= Room(c))
    decreases |sets|
  {
    hide Arrive, CanPush;
    if sets != [] {
      ArriveUsesRoom(c, f, sets[0], now, fo);
      ArriveAllUsesRoom(Arrive(c, f, sets[0], now, fo).cache, f, sets[1..], now, fo);
    }
  }

  lemma ArriveIsTruthful(c: CacheState, f: Frame, s: WireSet, now: i64, t: Scene)
    requires f.version in {NetflowV9, Ipfix} && Current(c.entries, t.layouts) && t.known == c.entries.Keys
    requires c.capPendingBytes < TWO_32 - 1 ==> t.room <= Room(c)
    ensures var o := Arrive(c, f, s, now, t.flowsOnly);
      AllTruthful(o.events, t) && Current(o.cache.entries, t.layouts) && o.cache.entries.Keys == t.known
  {
    UseIsCurrent(c, t.layouts, KeyFor(f, s.id), now);
    DeferredIsDirect(f, s);
    ArriveUsesRoom(c, f, s, now, t.flowsOnly);
    MissingRowReports(KeyFor(f, s.id), f.version, RecordFor(f, s.body));
    hide DecodeDataSet, DeferredCtx, DirectCtx, Touch, CanPush, MissingRow, ReportsMissing, Current, KeyFor;
  }

  lemma {:induction false} ArriveAllIsTruthful(c: CacheState, f: Frame, sets: seq<WireSet>, now: i64, t: Scene)
    requires f.version in {NetflowV9, Ipfix} && Current(c.entries, t.layouts) && t.known == c.entries.Keys
    requires t.room == Room(ArriveAll(c, f, sets, now, t.flowsOnly).cache)
    ensures var o := ArriveAll(c, f, sets, now, t.flowsOnly);
      AllTruthful(o.events, t) && Current(o.cache.entries, t.layouts) && o.cache.entries.Keys == t.known
    decreases |sets|
  {
    hide Arrive, Truthful, Current, Room;
    if sets != [] {
      ArriveAllUsesRoom(c, f, sets, now, t.flowsOnly);
      ArriveIsTruthful(c, f, sets[0], now, t);
      ArriveAllIsTruthful(Arrive(c, f, sets[0], now, t.flowsOnly).cache, f, sets[1..], now, t);
    }
  }

  lemma {:induction false} SettleIsTruthful(key: TemplateKey, recs: seq<PendingRecord>, e: TemplateEntry, t: Scene)
    requires key in t.known && key in t.layouts && t.layouts[key] == Layout(e.kind, e.fields)
    ensures AllTruthful(Settle(key, recs, e, t.flowsOnly), t)
  {
    hide DecodeDataSet, DeferredCtx;
    if recs != [] {
      SettleIsTruthful(key, recs[1..], e, t);
    }
  }

  lemma {:induction false} RetryIsTruthful(c: CacheState, keys: seq<TemplateKey>, now: i64, t: Scene)
    requires Current(c.entries, t.layouts) && t.known == c.entries.Keys
    ensures var o := RetryKeys(c, keys, now, t.flowsOnly);
      AllTruthful(o.events, t) && Current(o.cache.entries, t.layouts) && o.cache.entries.Keys == t.known
    decreases |keys|
  {
    if keys != [] {
      UseIsCurrent(c, t.layouts, keys[0], now);
      if keys[0] in c.entries {
        var c' := Use(c, keys[0], now);
        SettleIsTruthful(keys[0], WaitingAt(c'.pending, keys[0]), c'.entries[keys[0]], t);
      }
      hide Truthful, Current, Settle, Touch, PayloadBytes;
      RetryIsTruthful(RetryKey(c, keys[0], now, t.flowsOnly).cache, keys[1..], now, t);
    }
  }

  lemma {:induction false} FlushRecordsAreTruthful(
    key: TemplateKey, all: seq<PendingRecord>, recs: seq<PendingRecord>, t: Scene)
    requires WaitingAt(t.waiting, key) == all && forall r :: r in recs ==> r in all
    ensures AllTruthful(FlushRecords(key, recs, FlushVersion(all)), t)
  {
    hide MissingRow, ReportsMissing, FlushVersion;
    if recs != [] {
      MissingRowReports(key, FlushVersion(all), recs[0]);
      FlushRecordsAreTruthful(key, all, recs[1..], t);
    }
  }

  lemma {:induction false} FlushPairsAreTruthful(ks: seq<TemplateKey>, t: Scene)
    requires forall k :: k in ks ==> k in t.waiting
    ensures AllTruthful(FlushPairs(PairUp(t.waiting, ks)), t)
  {
    hide Truthful, FlushRecords, FlushVersion;
    if ks != [] {
      var recs := t.waiting[ks[0]];
      assert PairUp(t.waiting, ks)[1..] == PairUp(t.waiting, ks[1..]);
      FlushRecordsAreTruthful(ks[0], recs, recs, t);
      FlushPairsAreTruthful(ks[1..], t);
    }
  }

  /** Only `flows-only` drops options rows. */
  function ModeOf(s: Step): bool {
    s.Datagram? && s.input.opts.mode == FlowsOnly
  }

  /** The buffer room left once a step's Data Sets have arrived, before the retry frees any. */
  ghost function RoomAfter(ext: Externals, c: CacheState, s: Step): int {
    Room(if s.Datagram? then DecodeByVersion(ext, c, s.input).cache else c)
  }

  ghost function SceneOf(ext: Externals, h: Layouts, c: CacheState, s: Step): Scene {
    Scene(InForce(ext, h, s), DoStep(ext, c, s).cache.entries.Keys, c.pending, RoomAfter(ext, c, s), ModeOf(s),
      HasSets(s))
  }

  /** A step from a cache whose layouts are among those defined so far: every event judged by the step's own scene. */
  ghost predicate StepTruthful(ext: Externals, h: Layouts, c: CacheState, s: Step) {
    AllTruthful(DoStep(ext, c, s).events, SceneOf(ext, h, c, s))
  }

  lemma PassesAreTruthful(ext: Externals, h: Layouts, c: CacheState, i: Input, t: Scene)
    requires Current(c.entries, h) && t.layouts == InForce(ext, h, Datagram(i))
    requires t.known == DecodeByVersion(ext, c, i).cache.entries.Keys && t.room == RoomAfter(ext, c, Datagram(i))
    requires t.flowsOnly == ModeOf(Datagram(i)) && t.framed == HasSets(Datagram(i))
    ensures var o := DecodeByVersion(ext, c, i);
      AllTruthful(o.events, t) && Current(o.cache.entries, t.layouts)
  {
    ByVersion(ext, c, i);
    hide DecodeByVersion, Current, InputFrame, Probe;
    if InputFrame(i).Some? {
      var f, now := InputFrame(i).value, i.opts.now;
      var defs := DefsOf(ext, f.version, f.sets);
      var learned := Learn(c, f.exporter, f.domain, defs, now);
      FrameBodiesSmall(i);
      LearnIsCurrent(c, h, f.exporter, f.domain, defs, now);
      hide Learn, ArriveAll, DefsOf, Redefine, Truthful;
      ArriveAllIsTruthful(learned, f, f.sets, now, t.(known := learned.entries.Keys));
    }
  }

  lemma StepIsTruthful(ext: Externals, h: Layouts, c: CacheState, s: Step)
    requires Current(c.entries, h)
    ensures StepTruthful(ext, h, c, s) && Current(DoStep(ext, c, s).cache.entries, InForce(ext, h, s))
  {
    var t := SceneOf(ext, h, c, s);
    match s
    case Datagram(i) =>
      var o := DecodeByVersion(ext, c, i);
      hide DecodeByVersion, Truthful, Current, InForce, RetryKeys, Probe, HasSets;
      var first := t.(known := o.cache.entries.Keys);
      PassesAreTruthful(ext, h, c, i, first);
      RetryIsTruthful(o.cache, SortedKeys(o.cache.pending.Keys), i.opts.now, first);
    case Rehydrate =>
      CollectPairs(c.entries);
    case Flush =>
      hide FlushPairs, Truthful;
      FlushPairsAreTruthful(SortedKeys(c.pending.Keys), t);
  }

  /** Every step of a run, each judged by the layouts defined up to and including it. */
  ghost predicate RunTruthful(ext: Externals, h: Layouts, c: CacheState, steps: seq<Step>)
    decreases |steps|
  {
    steps == [] ||
    (StepTruthful(ext, h, c, steps[0])
     && RunTruthful(ext, InForce(ext, h, steps[0]), DoStep(ext, c, steps[0]).cache, steps[1..]))
  }

  /**
   * Truth over every run, from any cache, with any caps, through evictions, rehydrations and flushes. Rows of a
   * decoded or retried Data Set are its payload decoded against the last layout defined for its key, in the step's
   * mode and with the Data Set's own header context; a Data Set is refused only if its key is not cached and it
   * is larger than the room left in the buffer, and then reported missing; a flushed one was waiting, and is labelled
   * by the first record that waited with it.
   */
  lemma {:induction false} RunIsTruthful(ext: Externals, h: Layouts, c: CacheState, steps: seq<Step>)
    requires Current(c.entries, h)
    ensures RunTruthful(ext, h, c, steps)
    ensures Current(Run(ext, c, steps).cache.entries, LayoutsAfter(ext, h, steps))
    decreases |steps|
  {
    hide DoStep, StepTruthful, Current, InForce;
    if steps != [] {
      StepIsTruthful(ext, h, c, steps[0]);
      RunIsTruthful(ext, InForce(ext, h, steps[0]), DoStep(ext, c, steps[0]).cache, steps[1..]);
    }
  }

  function LayoutsAfter(ext: Externals, h: Layouts, steps: seq<Step>): Layouts
    decreases |steps|
  {
    if steps == [] then h else LayoutsAfter(ext, InForce(ext, h, steps[0]), steps[1..])
  }
}

/** Laws about single datagrams: the order of Sets does not matter, and printed datagrams decode to their records. */
module Datagrams {
  import opened Wire
  import opened Flow
  import opened CacheSpec
  import opened Fields
  import opened DataSet
  import opened Headers
  import opened Framing
  import opened Templates
  import opened Scan
  import opened KeyOrder
  import opened WellFormed
  import opened Invariants
  import opened KeyView
  import opened KeyTheorems
  import opened Isolation

  predicate IsData(s: WireSet) {
    s.id >= 256
  }

  predicate IsTemplate(v: Version, s: WireSet) {
    (v.NetflowV9? && s.id in {0, 1}) || (v.Ipfix? && s.id in {2, 3})
  }

  function DataSets(sets: seq<WireSet>): seq<WireSet> {
    if sets == [] then [] else (if IsData(sets[0]) then [sets[0]] else []) + DataSets(sets[1..])
  }

  function TemplateSets(v: Version, sets: seq<WireSet>): seq<WireSet> {
    if sets == [] then [] else (if IsTemplate(v, sets[0]) then [sets[0]] else []) + TemplateSets(v, sets[1..])
  }

  lemma {:induction false} OnlyTemplateSetsDefine(ext: Externals, v: Version, sets: seq<WireSet>)
    ensures DefsOf(ext, v, sets) == DefsOf(ext, v, TemplateSets(v, sets))
  {
    hide Parse, SetDefs;
    if sets != [] {
      OnlyTemplateSetsDefine(ext, v, sets[1..]);
      var rest := TemplateSets(v, sets[1..]);
      if IsTemplate(v, sets[0]) {
        assert TemplateSets(v, sets)[1..] == rest;
      } else {
        assert TemplateSets(v, sets) == [] + rest == rest;
        OtherSetsDefineNothing(ext, v, sets[0]);
        assert [] + DefsOf(ext, v, sets[1..]) == DefsOf(ext, v, sets[1..]);
      }
    }
  }

  lemma OtherSetsDefineNothing(ext: Externals, v: Version, s: WireSet)
    requires !IsTemplate(v, s)
    ensures SetDefs(ext, v, s) == []
  {
    hide Parse;
  }

  lemma {:induction false} OnlyDataSetsArrive(c: CacheState, f: Frame, sets: seq<WireSet>, now: i64, fo: bool)
    ensures ArriveAll(c, f, sets, now, fo) == ArriveAll(c, f, DataSets(sets), now, fo)
    decreases |sets|
  {
    if sets != [] {
      var one := Arrive(c, f, sets[0], now, fo);
      OnlyDataSetsArrive(one.cache, f, sets[1..], now, fo);
      if IsData(sets[0]) {
        assert DataSets(sets)[1..] == DataSets(sets[1..]);
      } else {
        assert DataSets(sets) == DataSets(sets[1..]) && one == Outcome(c, []);
        var more := ArriveAll(c, f, sets[1..], now, fo);
        assert [] + more.events == more.events;
      }
      hide Arrive;
    }
  }

  lemma {:induction false} FrameOfOtherSets(c: CacheState, f: Frame, g: Frame, sets: seq<WireSet>, now: i64, fo: bool)
    requires f.(sets := []) == g.(sets := [])
    ensures ArriveAll(c, f, sets, now, fo) == ArriveAll(c, g, sets, now, fo)
    decreases |sets|
  {
    hide DecodeDataSet, CanPush;
    if sets != [] {
      assert Arrive(c, f, sets[0], now, fo) == Arrive(c, g, sets[0], now, fo);
      FrameOfOtherSets(Arrive(c, f, sets[0], now, fo).cache, f, g, sets[1..], now, fo);
      hide Arrive;
    }
  }

  /**
   * Two datagrams with the same header, the same template Sets in order and the same Data Sets in order give the
   * same rows and the same cache, however the two kinds of Set, and ignored Sets, are interleaved.
   */
  lemma SetOrderIrrelevant(ext: Externals, c: CacheState, i: Input, j: Input)
    requires i.opts == j.opts && Probe(i.data) == Probe(j.data)
    requires InputFrame(i).Some? && InputFrame(j).Some?
    requires InputFrame(i).value.(sets := []) == InputFrame(j).value.(sets := [])
    requires TemplateSets(InputFrame(i).value.version, InputFrame(i).value.sets)
          == TemplateSets(InputFrame(i).value.version, InputFrame(j).value.sets)
    requires DataSets(InputFrame(i).value.sets) == DataSets(InputFrame(j).value.sets)
    ensures DecodeDatagram(ext, c, i) == DecodeDatagram(ext, c, j)
  {
    var f, g, fo := InputFrame(i).value, InputFrame(j).value, i.opts.mode.DropsOptions();
    ByVersion(ext, c, i);
    ByVersion(ext, c, j);
    hide InputFrame, DecodeByVersion, Probe, ArriveAll, DefsOf, Learn, Retry;
    OnlyTemplateSetsDefine(ext, f.version, f.sets);
    OnlyTemplateSetsDefine(ext, f.version, g.sets);
    var learned := Learn(c, f.exporter, f.domain, DefsOf(ext, f.version, f.sets), i.opts.now);
    OnlyDataSetsArrive(learned, f, f.sets, i.opts.now, fo);
    OnlyDataSetsArrive(learned, g, g.sets, i.opts.now, fo);
    FrameOfOtherSets(learned, f, g, DataSets(f.sets), i.opts.now, fo);
  }

  /**
   * A v9 or IPFIX datagram reaches the template engine exactly when its format is accepted, its header is whole and
   * the region after the header splits.
   */
  lemma ReachesTheEngineIff(i: Input)
    requires Probe(i.data) in {Some(NetflowV9), Some(Ipfix)}
    ensures var v := Probe(i.data).value;
      InputFrame(i).Some?
      <==> i.restrict.Accepts(v) && |i.data| >= HeaderSize(v) && SplitSets(i.data[HeaderSize(v)..]).Some?
    ensures InputFrame(i).Some? ==>
      InputFrame(i).value.sets == SplitSets(i.data[HeaderSize(Probe(i.data).value)..]).value.sets
  {
    hide SplitSets, Probe;
  }

  /**
   * A sound v9 datagram of an accepted format always reaches the template engine. A sound IPFIX datagram does exactly
   * when whatever follows its declared length splits too, so always when that length is the datagram's own.
   */
  lemma SoundReachesTheEngine(i: Input, v: Version)
    requires v.NetflowV9? || v.Ipfix?
    requires IsSound(i.data, v) && i.restrict.Accepts(v)
    ensures v.NetflowV9? ==> InputFrame(i).Some?
    ensures v.Ipfix? ==> (InputFrame(i).Some? <==> SplitSets(i.data[U16(i.data, 2)..]).Some?)
    ensures v.Ipfix? && |i.data| - U16(i.data, 2) < 4 ==> InputFrame(i).Some?
  {
    ReachesTheEngineIff(i);
    hide InputFrame, Probe;
    if v.Ipfix? {
      IpfixDecoderReadsOn(i.data);
    }
  }

  // End to end.

  /** The rows of printed records: none if they are options data and the mode drops those. */
  function PrintedRows(def: TemplateDef, records: seq<seq<Cell>>, ctx: Ctx, flowsOnly: bool): seq<FlowRecord>
    requires AllFit(def.fields, records)
  {
    if flowsOnly && def.kind == Options then [] else BuiltRows(def.fields, records, ctx)
  }

  function LayoutBy(def: TemplateDef): Layout {
    Layout(def.kind, def.fields)
  }

  /** A frame written in a dialect. */
  predicate Speaks(f: Frame, d: Dialect) {
    f.version == (if IsIpfix(d) then Ipfix else NetflowV9)
  }

  /** The first pass over such a datagram makes exactly one key known. */
  lemma OneLearned(
    ext: Externals, c: CacheState, f: Frame, d: Dialect, t: RawTemplate, def: TemplateDef, now: i64)
    requires Speaks(f, d) && def == Resolve(ext, t, d)
    requires TemplateOk(t, d) && t.id >= 256 && |f.sets| == 2 && f.sets[1].id == t.id
    requires f.sets[0] == WireSet(SetIdOf(d), PrintTemplates([t], d))
    requires Valid(c) && |c.entries.Keys + {KeyFor(f, t.id)}| <= c.capEntries
    ensures var key, learned := KeyFor(f, t.id), Learn(c, f.exporter, f.domain, DefsOf(ext, f.version, f.sets), now);
      && learned.pending == c.pending && learned.entries.Keys == c.entries.Keys + {key}
      && LayoutOf(learned.entries, key) == Some(LayoutBy(def))
  {
    hide Valid, Upsert, PrintTemplates, TemplateOk, KeyFor, Learn, DefsOf;
    var key := KeyFor(f, t.id);
    OnlyDefinition(ext, f, d, t);
    KeyForIs(f, t.id);
    assert def.id == t.id;
    hide Resolve;
    LearnFirst(c, f.exporter, f.domain, def, [], now);
    LearnNothing(Upsert(c, key, EntryOf(def, now)), f.exporter, f.domain, now);
    assert [def] + [] == [def];
    UpsertView(c, key, EntryOf(def, now), key);
    LearnLeavesPending(c, f.exporter, f.domain, [def], now);
  }

  /** The second pass over a template Set and one Data Set whose layout is known. */
  lemma OneArrives(c: CacheState, f: Frame, a: WireSet, s: WireSet, l: Layout, now: i64, fo: bool)
    requires a.id < 256 <= s.id && f.sets == [a, s] && LayoutOf(c.entries, KeyFor(f, s.id)) == Some(l)
    ensures var o := ArriveAll(c, f, f.sets, now, fo);
      && o.events == [Settled(Item(KeyFor(f, s.id), RecordFor(f, s.body)), Decoded,
                        DecodeDataSet(l.kind, l.fields, s.body, DirectCtx(f, s.id), fo))]
      && o.cache == Use(c, KeyFor(f, s.id), now)
  {
    hide DecodeDataSet, DirectCtx, KeyFor, RecordFor;
    var first, second := Arrive(c, f, a, now, fo), Arrive(c, f, s, now, fo);
    assert first == Outcome(c, []);
    assert f.sets[1..] == [s] && [s][1..] == [];
    var last := ArriveAll(second.cache, f, [], now, fo);
    assert last == Outcome(second.cache, []);
    assert ArriveAll(c, f, [s], now, fo) == Outcome(second.cache, second.events + []);
    assert second.events + [] == second.events && [] + second.events == second.events;
    hide Arrive, Touch;
  }

  /** A template followed by a Data Set of its records: the first event is that Data Set, decoded to those records. */
  lemma TemplateThenData(
    ext: Externals, c: CacheState, f: Frame, d: Dialect, t: RawTemplate, def: TemplateDef, records: seq<seq<Cell>>,
    now: i64, fo: bool)
    requires Speaks(f, d) && def == Resolve(ext, t, d) && TemplateOk(t, d) && t.id >= 256
    requires Valid(c) && |c.entries.Keys + {KeyFor(f, t.id)}| <= c.capEntries
    requires MinRecord(def.fields) > 0 && AllFit(def.fields, records)
    requires f.sets == SelfContained(d, t, def, records)
    ensures var key, o := KeyFor(f, t.id), DecodeFrame(ext, c, f, now, fo);
      && o.events == [Settled(Item(key, RecordFor(f, f.sets[1].body)), Decoded,
                        PrintedRows(def, records, DirectCtx(f, t.id), fo))]
      && o.cache.pending == c.pending && o.cache.entries.Keys == c.entries.Keys + {key}
      && LayoutOf(o.cache.entries, key) == Some(LayoutBy(def))
  {
    hide Valid, PrintRecords, BuiltRows, PrintTemplates, MinRecord, AllFit, DecodeDataSet, TemplateOk, KeyFor,
      RecordFor, DirectCtx, Resolve, Learn, ArriveAll, DefsOf, Speaks;
    var key, learned := KeyFor(f, t.id), Learn(c, f.exporter, f.domain, DefsOf(ext, f.version, f.sets), now);
    OneLearned(ext, c, f, d, t, def, now);
    OneArrives(learned, f, f.sets[0], f.sets[1], LayoutBy(def), now, fo);
    DataRoundTrip(def.kind, def.fields, records, DirectCtx(f, t.id), fo);
    UsedStays(learned, key, now);
  }

  lemma UsedStays(c: CacheState, key: TemplateKey, now: i64)
    ensures var r := Use(c, key, now);
      && r.pending == c.pending && r.entries.Keys == c.entries.Keys
      && LayoutOf(r.entries, key) == LayoutOf(c.entries, key)
  {
  }

  lemma {:induction false} SettledRows(key: TemplateKey, recs: seq<PendingRecord>, e: TemplateEntry, fo: bool)
    ensures RowsOf(Settle(key, recs, e, fo)) == PayloadRows(key, recs, Layout(e.kind, e.fields), fo)
  {
    hide DecodeDataSet, DeferredCtx;
    if recs != [] {
      SettledRows(key, recs[1..], e, fo);
      assert Settle(key, recs, e, fo)[1..] == Settle(key, recs[1..], e, fo);
    }
  }

  /** When a retry can find only one key known, it does what that key's retry does. */
  lemma {:induction false} RetryOnly(c: CacheState, keys: seq<TemplateKey>, key: TemplateKey, now: i64, fo: bool)
    requires Increasing(keys) && forall k :: k in keys && k != key ==> k !in c.entries
    ensures RetryKeys(c, keys, now, fo) == if key in keys then RetryKey(c, key, now, fo) else Outcome(c, [])
    decreases |keys|
  {
    hide KeyLess;
    if keys != [] {
      KeyTotal(keys[0], keys[0]);
      assert keys[0] !in keys[1..];
      var one := RetryKey(c, keys[0], now, fo);
      RetryKeepsKeys(c, keys[0], now, fo);
      hide RetryKey;
      if keys[0] == key {
        RetryNothingDue(one.cache, keys[1..], now, fo);
        assert one.events + [] == one.events;
      } else {
        RetryOnly(c, keys[1..], key, now, fo);
        var more := RetryKeys(c, keys[1..], now, fo);
        assert [] + more.events == more.events;
      }
    }
  }

  lemma RetryKeepsKeys(c: CacheState, k: TemplateKey, now: i64, fo: bool)
    ensures RetryKey(c, k, now, fo).cache.entries.Keys == c.entries.Keys
    ensures k !in c.entries ==> RetryKey(c, k, now, fo) == Outcome(c, [])
  {
    hide Settle, Touch, PayloadBytes;
  }

  /** After the passes of a datagram have made one key known, the retry decodes exactly what waited for that key. */
  lemma RetryOfOne(c: CacheState, key: TemplateKey, l: Layout, now: i64, fo: bool)
    requires LayoutOf(c.entries, key) == Some(l)
    requires forall k :: k in c.pending && k != key ==> k !in c.entries
    ensures RowsOf(Retry(c, now, fo).events) == PayloadRows(key, WaitingAt(c.pending, key), l, fo)
    ensures key !in Retry(c, now, fo).cache.pending
  {
    hide Settle, PayloadBytes, KeyLess;
    var keys := SortedKeys(c.pending.Keys);
    SortedIncreasing(c.pending.Keys);
    assert forall k :: k in keys <==> k in c.pending.Keys;
    RetryOnly(c, keys, key, now, fo);
    hide RetryKeys;
    SettledRows(key, WaitingAt(c.pending, key), Use(c, key, now).entries[key], fo);
  }

  /** All the rows of such a datagram: its own records, then whatever waited for its template. */
  lemma AllRows(
    ext: Externals, c: CacheState, i: Input, f: Frame, d: Dialect, t: RawTemplate, def: TemplateDef,
    records: seq<seq<Cell>>)
    requires InputFrame(i) == Some(f) && Speaks(f, d)
    requires def == Resolve(ext, t, d) && TemplateOk(t, d) && t.id >= 256
    requires Valid(c) && |c.entries.Keys + {KeyFor(f, t.id)}| <= c.capEntries
    requires MinRecord(def.fields) > 0 && AllFit(def.fields, records)
    requires f.sets == SelfContained(d, t, def, records)
    ensures OwnThenQueue(c, DecodeDatagram(ext, c, i), KeyFor(f, t.id), def,
              PrintedRows(def, records, DirectCtx(f, t.id), i.opts.mode.DropsOptions()), i.opts.mode.DropsOptions())
  {
    hide Valid, PrintTemplates, MinRecord, AllFit, Resolve, TemplateOk, Retry, DecodeFrame, InputFrame,
      DecodeByVersion, Probe, PayloadRows, KeyFor, DirectCtx, DecodeDatagram, PrintedRows, SelfContained, Speaks;
    var now, fo, key := i.opts.now, i.opts.mode.DropsOptions(), KeyFor(f, t.id);
    TemplateThenData(ext, c, f, d, t, def, records, now, fo);
    ByVersion(ext, c, i);
    RetryAll(ext, c, i);
    var o := DecodeByVersion(ext, c, i);
    var r := Retry(o.cache, now, fo);
    if Quiet(c) {
      RetryOfOne(o.cache, key, LayoutBy(def), now, fo);
      RowsOfConcat(o.events, r.events);
      assert o.events[1..] == [] && RowsOf(o.events) == o.events[0].rows + RowsOf([]);
    }
  }

  /**
   * The outcome begins with `own` rows; from a quiet cache its rows are exactly these and those of the records that
   * waited for the key, of which none is left.
   */
  ghost predicate OwnThenQueue(
    c: CacheState, o: Outcome, key: TemplateKey, def: TemplateDef, own: seq<FlowRecord>, flowsOnly: bool)
  {
    && o.events != [] && o.events[0].rows == own
    && (Quiet(c) ==>
          RowsOf(o.events) == own + PayloadRows(key, WaitingAt(c.pending, key), LayoutBy(def), flowsOnly)
          && key !in o.cache.pending)
  }

  lemma KeyForIs(f: Frame, id: u16)
    ensures KeyFor(f, id) == TemplateKey(f.exporter, f.domain, id)
  {
  }

  lemma OnlyDefinition(ext: Externals, f: Frame, d: Dialect, t: RawTemplate)
    requires Speaks(f, d)
    requires TemplateOk(t, d) && t.id >= 256 && |f.sets| == 2 && f.sets[1].id == t.id
    requires f.sets[0] == WireSet(SetIdOf(d), PrintTemplates([t], d))
    ensures DefsOf(ext, f.version, f.sets) == [Resolve(ext, t, d)]
  {
    hide Parse, PrintTemplate, PrintTemplates, Resolve, TemplateOk;
    OneTemplateSet(ext, f.version, d, t);
    var data := f.sets[1];
    assert f.sets[1..] == [data] && [data][1..] == [];
    assert DefsOf(ext, f.version, [data]) == [] + DefsOf(ext, f.version, []);
    assert SetDefs(ext, f.version, data) == [];
    hide SetDefs;
  }

  /** A Set with one template defines that template. */
  lemma OneTemplateSet(ext: Externals, v: Version, d: Dialect, t: RawTemplate)
    requires v == (if IsIpfix(d) then Ipfix else NetflowV9) && TemplateOk(t, d)
    ensures SetDefs(ext, v, WireSet(SetIdOf(d), PrintTemplates([t], d))) == [Resolve(ext, t, d)]
  {
    hide Parse, PrintTemplate, Resolve, TemplateOk;
    TemplateRoundTrip(ext, [t], d, []);
    assert PrintTemplates([t], d) + [] == PrintTemplates([t], d);
    assert [t][1..] == [];
    assert ResolveAll(ext, [t], d) == [Resolve(ext, t, d)] + ResolveAll(ext, [], d);
    hide PrintTemplates, ResolveAll;
  }

  /** The two Sets of a self-contained datagram. */
  function SelfContained(d: Dialect, t: RawTemplate, def: TemplateDef, records: seq<seq<Cell>>): seq<WireSet>
    requires TemplateOk(t, d) && AllFit(def.fields, records)
  {
    [WireSet(SetIdOf(d), PrintTemplates([t], d)), WireSet(t.id, PrintRecords(def.fields, records))]
  }

  /** The observation domain a datagram counts under: the one forced by the options, else its header's. */
  function ScopeDomain(opts: Scan.DecodeOptions, printed: u32): u32 {
    if opts.domainOverride.Some? then opts.domainOverride.value else printed
  }

  /** A printed IPFIX datagram is framed as its Sets, under the header's context. */
  lemma IpfixFramed(
    opts: Scan.DecodeOptions, restrict: Restrict, seconds: u32, sequence: u32, domain: u32, sets: seq<WireSet>,
    body: bytes)
    requires restrict.Accepts(Ipfix)
    requires AllPrintable(sets) && body == Join(sets) && |body| + 16 < TWO_16
    ensures var i := Input(PrintIpfixHeader(|body| + 16, seconds, sequence, domain) + body, opts, restrict);
      && Probe(i.data) == Some(Ipfix)
      && InputFrame(i)
         == Some(Frame(opts.exporter, ScopeDomain(opts, domain), Ipfix, Some(seconds * 1_000_000), Some(sequence),
                   None, sets))
  {
    hide SplitSets, ParseIpfix, Join;
    var header := PrintIpfixHeader(|body| + 16, seconds, sequence, domain);
    assert |header| == 16;
    hide PrintIpfixHeader;
    IpfixHeaderRoundTrip(|body| + 16, seconds, sequence, domain, body);
    FramingRoundTrip(sets, []);
    assert body + [] == body;
    hide Probe;
  }

  lemma V9Framed(
    opts: Scan.DecodeOptions, restrict: Restrict, count: u16, uptime: u32, seconds: u32, sequence: u32, source: u32,
    sets: seq<WireSet>)
    requires restrict.Accepts(NetflowV9) && AllPrintable(sets)
    ensures var i := Input(PrintV9Header(count, uptime, seconds, sequence, source) + Join(sets), opts, restrict);
      && Probe(i.data) == Some(NetflowV9)
      && InputFrame(i)
         == Some(Frame(opts.exporter, ScopeDomain(opts, source), NetflowV9, Some(seconds * 1_000_000), Some(sequence),
                   Some(uptime), sets))
  {
    hide SplitSets, ParseV9, Join;
    var header := PrintV9Header(count, uptime, seconds, sequence, source);
    assert |header| == 20;
    hide PrintV9Header;
    V9HeaderRoundTrip(count, uptime, seconds, sequence, source, Join(sets));
    FramingRoundTrip(sets, []);
    assert Join(sets) + [] == Join(sets);
    hide Probe;
  }

  /**
   * The IPFIX datagram the fixtures build, with a template or an options template, from bytes to rows: in a quiet
   * cache, exactly its records under its header's context, and then whatever waited for its template.
   */
  lemma IpfixDatagramRoundTrip(
    ext: Externals, c: CacheState, opts: Scan.DecodeOptions, restrict: Restrict, seconds: u32, sequence: u32,
    domain: u32, d: Dialect, t: RawTemplate, def: TemplateDef, records: seq<seq<Cell>>, body: bytes)
    requires restrict.Accepts(Ipfix) && IsIpfix(d)
    requires TemplateOk(t, d) && t.id >= 256 && def == Resolve(ext, t, d)
    requires MinRecord(def.fields) > 0 && AllFit(def.fields, records)
    requires var key := TemplateKey(opts.exporter, ScopeDomain(opts, domain), t.id);
      Valid(c) && |c.entries.Keys + {key}| <= c.capEntries
    requires AllPrintable(SelfContained(d, t, def, records))
    requires body == Join(SelfContained(d, t, def, records)) && |body| + 16 < TWO_16
    ensures var i := Input(PrintIpfixHeader(|body| + 16, seconds, sequence, domain) + body, opts, restrict);
      var ctx := Ctx(opts.exporter, ScopeDomain(opts, domain), Ipfix, Some(seconds * 1_000_000), Some(sequence), None,
        t.id);
      OwnThenQueue(c, DecodeDatagram(ext, c, i), TemplateKey(opts.exporter, ScopeDomain(opts, domain), t.id), def,
        PrintedRows(def, records, ctx, opts.mode == FlowsOnly), opts.mode == FlowsOnly)
  {
    hide Valid, PrintedRows, MinRecord, AllFit, Resolve, TemplateOk, DecodeDatagram, Join, InputFrame,
      PrintIpfixHeader, Probe, SelfContained, OwnThenQueue, AllPrintable;
    var sets := SelfContained(d, t, def, records);
    var i := Input(PrintIpfixHeader(|body| + 16, seconds, sequence, domain) + body, opts, restrict);
    IpfixFramed(opts, restrict, seconds, sequence, domain, sets, body);
    AllRows(ext, c, i, InputFrame(i).value, d, t, def, records);
  }

  /** And the v9 one. */
  lemma V9DatagramRoundTrip(
    ext: Externals, c: CacheState, opts: Scan.DecodeOptions, restrict: Restrict, count: u16, uptime: u32, seconds: u32,
    sequence: u32, source: u32, d: Dialect, t: RawTemplate, def: TemplateDef, records: seq<seq<Cell>>)
    requires restrict.Accepts(NetflowV9) && !IsIpfix(d)
    requires TemplateOk(t, d) && t.id >= 256 && def == Resolve(ext, t, d)
    requires MinRecord(def.fields) > 0 && AllFit(def.fields, records)
    requires var key := TemplateKey(opts.exporter, ScopeDomain(opts, source), t.id);
      Valid(c) && |c.entries.Keys + {key}| <= c.capEntries
    requires AllPrintable(SelfContained(d, t, def, records))
    ensures
      var data := PrintV9Header(count, uptime, seconds, sequence, source) + Join(SelfContained(d, t, def, records));
      var ctx := Ctx(opts.exporter, ScopeDomain(opts, source), NetflowV9, Some(seconds * 1_000_000), Some(sequence),
        Some(uptime), t.id);
      var o := DecodeDatagram(ext, c, Input(data, opts, restrict));
      OwnThenQueue(c, o, TemplateKey(opts.exporter, ScopeDomain(opts, source), t.id), def,
        PrintedRows(def, records, ctx, opts.mode == FlowsOnly), opts.mode == FlowsOnly)
  {
    hide Valid, PrintedRows, MinRecord, AllFit, Resolve, TemplateOk, DecodeDatagram, Join, InputFrame,
      PrintV9Header, Probe, SelfContained, OwnThenQueue, AllPrintable;
    var sets := SelfContained(d, t, def, records);
    var i := Input(PrintV9Header(count, uptime, seconds, sequence, source) + Join(sets), opts, restrict);
    V9Framed(opts, restrict, count, uptime, seconds, sequence, source, sets);
    AllRows(ext, c, i, InputFrame(i).value, d, t, def, records);
  }

  /** Rows that hold the values of their records raw, field by field, and fill no column. */
  predicate RowsRaw(rows: seq<FlowRecord>, names: seq<string>, records: seq<seq<Cell>>) {
    |rows| == |records| &&
    forall i :: 0 <= i < |rows| ==>
      && OnlyRaw(rows[i]) && |rows[i].rawFields| == |names| == |records[i]|
      && forall j :: 0 <= j < |names| ==> rows[i].rawFields[j] == (names[j], records[i][j].value)
  }

  lemma {:induction false} ValueAt(cells: seq<Cell>, j: nat)
    requires j < |cells|
    ensures Values(cells)[j] == cells[j].value
  {
    if j > 0 {
      ValueAt(cells[1..], j - 1);
    }
  }

  function NamesOf(fields: seq<FieldSpec>): (names: seq<string>)
    ensures |names| == |fields| && forall j :: 0 <= j < |fields| ==> names[j] == fields[j].name
  {
    if fields == [] then [] else [fields[0].name] + NamesOf(fields[1..])
  }

  lemma ForeignRows(fields: seq<FieldSpec>, records: seq<seq<Cell>>, ctx: Ctx)
    requires AllFit(fields, records) && forall j :: 0 <= j < |fields| ==> fields[j].enterprise != 0
    ensures RowsRaw(BuiltRows(fields, records, ctx), NamesOf(fields), records)
  {
    var rows, names := BuiltRows(fields, records, ctx), NamesOf(fields);
    forall i | 0 <= i < |rows|
      ensures OnlyRaw(rows[i]) && |rows[i].rawFields| == |names| == |records[i]|
        && forall j :: 0 <= j < |names| ==> rows[i].rawFields[j] == (names[j], records[i][j].value)
    {
      assert RecordFits(fields, records[i]);
      ForeignStaysRaw(fields, Values(records[i]), ctx);
      forall j | 0 <= j < |names| ensures rows[i].rawFields[j] == (names[j], records[i][j].value) {
        ValueAt(records[i], j);
      }
    }
    hide BuiltRows, OnlyRaw, BuildRow;
  }

  /**
   * A printed IPFIX datagram whose template has only enterprise fields, whatever their element ids: one row per
   * record, with every value kept raw under the name the registry gives that enterprise and element, and no column
   * filled.
   */
  lemma EnterpriseDatagram(
    ext: Externals, c: CacheState, opts: Scan.DecodeOptions, seconds: u32, sequence: u32, domain: u32, t: RawTemplate,
    def: TemplateDef, records: seq<seq<Cell>>, body: bytes)
    requires TemplateOk(t, IpfixData) && t.id >= 256 && def == Resolve(ext, t, IpfixData)
    requires forall j :: 0 <= j < |t.fields| ==> t.fields[j].enterprise != 0
    requires MinRecord(def.fields) > 0 && AllFit(def.fields, records)
    requires var key := TemplateKey(opts.exporter, ScopeDomain(opts, domain), t.id);
      Valid(c) && |c.entries.Keys + {key}| <= c.capEntries
    requires AllPrintable(SelfContained(IpfixData, t, def, records))
    requires body == Join(SelfContained(IpfixData, t, def, records)) && |body| + 16 < TWO_16
    ensures var i := Input(PrintIpfixHeader(|body| + 16, seconds, sequence, domain) + body, opts, Any);
      var o, names := DecodeDatagram(ext, c, i), NamesOf(def.fields);
      && o.events != [] && RowsRaw(o.events[0].rows, names, records)
      && |names| == |t.fields|
      && forall j :: 0 <= j < |names| ==> names[j] == ext.resolve(t.fields[j].enterprise, t.fields[j].ieId).0
  {
    hide Valid, MinRecord, AllFit, TemplateOk, DecodeDatagram, Join, PrintIpfixHeader, SelfContained, AllPrintable,
      BuiltRows, RowsRaw, RowsOf, PayloadRows, Quiet;
    IpfixDatagramRoundTrip(ext, c, opts, Any, seconds, sequence, domain, IpfixData, t, def, records, body);
    ResolveDescribes(ext, t, IpfixData);
    assert t.scopes == [] by { PlainHasNoScopes(t); }
    hide Resolve, ScopeIs;
    forall j | 0 <= j < |def.fields| ensures FieldIs(ext, def.fields[j], t.fields[j]) {
      assert FieldIs(ext, def.fields[|t.scopes| + j], t.fields[j]);
    }
    ForeignRows(def.fields, records,
      Ctx(opts.exporter, ScopeDomain(opts, domain), Ipfix, Some(seconds * 1_000_000), Some(sequence), None, t.id));
  }

  lemma PlainHasNoScopes(t: RawTemplate)
    requires TemplateOk(t, IpfixData)
    ensures t.scopes == []
  {
  }

  /** The scope fields of a printed v9 options template are kept raw too, none taken for an element of its number. */
  lemma ScopeRows(ext: Externals, t: RawTemplate, def: TemplateDef, records: seq<seq<Cell>>, ctx: Ctx)
    requires TemplateOk(t, V9Options) && def == Resolve(ext, t, V9Options) && t.fields == []
    requires AllFit(def.fields, records)
    ensures RowsRaw(PrintedRows(def, records, ctx, false), NamesOf(def.fields), records)
    ensures forall j :: 0 <= j < |t.scopes| ==> ScopeIs(def.fields[j], t.scopes[j])
  {
    ResolveDescribes(ext, t, V9Options);
    ForeignRows(def.fields, records, ctx);
    hide BuiltRows, RowsRaw, Resolve, TemplateOk;
  }
}

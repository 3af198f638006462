/**
 * The decoder as it runs: a mutable cache threaded through two loops, a retry and a flush, and a batch loop around
 * them. Each method returns its rows and, as ghost output, the events of the specification that account for them.
 */
module Decoder {
  import opened Wire
  import opened Flow
  import opened KeyOrder
  import opened CacheSpec
  import opened Cache
  import opened DataSet
  import opened Headers
  import opened Framing
  import opened Templates
  import opened Scan
  import opened Batches
  import opened Projection
  import V5

  /** First pass: learn every template of the datagram. */
  method LearnSets(ext: Externals, f: Frame, now: i64, cache: TemplateCache)
    modifies cache
    ensures cache.Model() == Learn(old(cache.Model()), f.exporter, f.domain, DefsOf(ext, f.version, f.sets), now)
  {
    hide Parse, Learn, SetDefs;
    ghost var all := Learn(cache.Model(), f.exporter, f.domain, DefsOf(ext, f.version, f.sets), now);
    assert f.sets[0..] == f.sets;
    for i := 0 to |f.sets|
      invariant Learn(cache.Model(), f.exporter, f.domain, DefsOf(ext, f.version, f.sets[i..]), now) == all
    {
      var s := f.sets[i];
      assert f.sets[i..][1..] == f.sets[i + 1..];
      LearnConcat(cache.Model(), f.exporter, f.domain, SetDefs(ext, f.version, s),
        DefsOf(ext, f.version, f.sets[i + 1..]), now);
      LearnNothing(cache.Model(), f.exporter, f.domain, now);
      DefsOfSet(ext, f.version, s);
      var d := DialectOf(f.version, s.id);
      if d.Some? {
        ParseTemplates(ext, s.body, f.exporter, f.domain, now, d.value, cache);
      }
    }
    LearnNothing(cache.Model(), f.exporter, f.domain, now);
  }

  lemma DefsOfSet(ext: Externals, v: Version, s: WireSet)
    ensures SetDefs(ext, v, s) == if DialectOf(v, s.id).Some? then Parse(ext, s.body, DialectOf(v, s.id).value) else []
  {
    hide Parse;
  }

  /** A partial outcome continued by the rest of the pass. */
  ghost function After(log: seq<Event>, o: Outcome): Outcome {
    Outcome(o.cache, log + o.events)
  }

  lemma AfterAssociates(log: seq<Event>, a: seq<Event>, o: Outcome)
    ensures After(log, After(a, o)) == After(log + a, o)
    ensures After([], o) == o && After(log, Outcome(o.cache, [])) == Outcome(o.cache, log)
  {
    assert log + (a + o.events) == log + a + o.events;
    assert [] + o.events == o.events && log + [] == log;
  }

  lemma RowsOfOne(rows: seq<FlowRecord>, log: seq<Event>, e: Event)
    requires rows == RowsOf(log)
    ensures rows + e.rows == RowsOf(log + [e])
  {
    RowsOfConcat(log, [e]);
    assert [e][1..] == [];
    assert RowsOf([e]) == e.rows + RowsOf([]);
    assert e.rows + [] == e.rows;
  }

  /** Second pass, one Data Set. */
  method ArriveSet(f: Frame, s: WireSet, now: i64, flowsOnly: bool, cache: TemplateCache)
    returns (rows: seq<FlowRecord>, ghost log: seq<Event>)
    modifies cache
    ensures Outcome(cache.Model(), log) == Arrive(old(cache.Model()), f, s, now, flowsOnly)
    ensures rows == RowsOf(log)
  {
    hide DecodeDataSet, CanPush;
    rows, log := [], [];
    if s.id < 256 {
      return;
    }
    var key := TemplateKey(f.exporter, f.domain, s.id);
    ghost var item := Item(key, RecordFor(f, s.body));
    var tpl := cache.UseTemplate(key, now);
    if tpl.Some? {
      rows := DecodePayload(tpl.value.kind, tpl.value.fields, s.body, DirectCtx(f, s.id), flowsOnly);
      log := [Settled(item, Decoded, rows)];
    } else {
      var rec := PendingRecord(f.exportTime, f.sequence, f.version, f.sysUptime, s.body);
      var ok := cache.PushPending(key, rec);
      if !ok {
        rows := [Diagnostic(f.exporter, Some(f.version), f.domain, f.exportTime, f.sequence,
                   MissingTemplate(f.domain, s.id))];
        log := [Settled(item, Refused, rows)];
      }
    }
    RowsOfOne([], [], if log == [] then Direct([]) else log[0]);
    assert [] + rows == rows && [] + log == log;
  }

  method ArriveSets(f: Frame, now: i64, flowsOnly: bool, cache: TemplateCache)
    returns (rows: seq<FlowRecord>, ghost log: seq<Event>)
    modifies cache
    ensures Outcome(cache.Model(), log) == ArriveAll(old(cache.Model()), f, f.sets, now, flowsOnly)
    ensures rows == RowsOf(log)
  {
    hide Arrive, RowsOf;
    rows, log := [], [];
    NoRows();
    ghost var all := ArriveAll(cache.Model(), f, f.sets, now, flowsOnly);
    assert f.sets[0..] == f.sets;
    AfterAssociates([], [], all);
    for i := 0 to |f.sets|
      invariant all == After(log, ArriveAll(cache.Model(), f, f.sets[i..], now, flowsOnly))
      invariant rows == RowsOf(log)
    {
      assert f.sets[i..][1..] == f.sets[i + 1..];
      ghost var one := Arrive(cache.Model(), f, f.sets[i], now, flowsOnly);
      AfterAssociates(log, one.events, ArriveAll(one.cache, f, f.sets[i + 1..], now, flowsOnly));
      var more;
      ghost var events;
      more, events := ArriveSet(f, f.sets[i], now, flowsOnly, cache);
      RowsOfConcat(log, events);
      rows, log := rows + more, log + events;
    }
    AfterAssociates(log, [], Outcome(cache.Model(), []));
  }

  lemma NoRows()
    ensures RowsOf([]) == []
  {
  }

  /** A v9 or IPFIX datagram up to the retry. */
  method DecodeSets(ext: Externals, v: Version, d: bytes, opts: Scan.DecodeOptions, cache: TemplateCache)
    returns (rows: seq<FlowRecord>, ghost log: seq<Event>)
    requires v.NetflowV9? || v.Ipfix?
    modifies cache
    ensures match FrameOf(v, d, opts)
      case Rejected(row) => rows == [row] && log == [Direct(rows)] && cache.Model() == old(cache.Model())
      case Framed(f) =>
        Outcome(cache.Model(), log) == DecodeFrame(ext, old(cache.Model()), f, opts.now, opts.mode.DropsOptions())
    ensures rows == RowsOf(log)
  {
    hide Learn, ArriveAll, SplitSets, ParseHeader, DefsOf;
    var h := ParseHeader(d);
    if h.None? {
      rows := [Diagnostic(opts.exporter, Some(v), 0, None, None, BadHeader(v))];
      log := [Direct(rows)];
      RowsOfOne([], [], log[0]);
      return;
    }
    var hdr := h.value;
    var own := if hdr.domain.Some? then hdr.domain.value else 0;
    var domain := if opts.domainOverride.Some? then opts.domainOverride.value else own;
    var size := if v.NetflowV9? then 20 else 16;
    var region := d[if size <= |d| then size else |d|..];
    var sets;
    if v.NetflowV9? {
      sets := SplitFlowsets(region);
    } else {
      sets := SplitIpfixSets(region);
    }
    if sets.None? {
      rows := [Diagnostic(opts.exporter, Some(v), domain, hdr.exportTime, hdr.sequence, BadSets(v))];
      log := [Direct(rows)];
      RowsOfOne([], [], log[0]);
      return;
    }
    var uptime: Option<u64> := if v.NetflowV9? && hdr.sysUptime.Some? then Some(hdr.sysUptime.value) else None;
    var f := Frame(opts.exporter, domain, v, hdr.exportTime, hdr.sequence, uptime, sets.value);
    LearnSets(ext, f, opts.now, cache);
    rows, log := ArriveSets(f, opts.now, opts.mode.DropsOptions(), cache);
  }

  lemma SettleFrom(key: TemplateKey, recs: seq<PendingRecord>, i: nat, e: TemplateEntry, fo: bool)
    requires i < |recs|
    ensures RowsOf(Settle(key, recs[i..], e, fo))
         == DecodeWith(e, recs[i].payload, DeferredCtx(Item(key, recs[i])), fo)
            + RowsOf(Settle(key, recs[i + 1..], e, fo))
  {
    hide DecodeWith, DeferredCtx;
    assert recs[i..][1..] == recs[i + 1..];
    var es := Settle(key, recs[i..], e, fo);
    assert es[1..] == Settle(key, recs[i + 1..], e, fo);
  }

  lemma SettleNothing(key: TemplateKey, e: TemplateEntry, fo: bool)
    ensures RowsOf(Settle(key, [], e, fo)) == []
  {
  }

  method SettleRecords(key: TemplateKey, recs: seq<PendingRecord>, tpl: TemplateEntry, flowsOnly: bool)
    returns (rows: seq<FlowRecord>)
    ensures rows == RowsOf(Settle(key, recs, tpl, flowsOnly))
  {
    hide DecodeDataSet, RowsOf, Settle;
    rows := [];
    ghost var all := RowsOf(Settle(key, recs, tpl, flowsOnly));
    assert recs[0..] == recs && [] + all == all;
    SettleNothing(key, tpl, flowsOnly);
    for i := 0 to |recs|
      invariant rows + RowsOf(Settle(key, recs[i..], tpl, flowsOnly)) == all
    {
      var rec := recs[i];
      var version := if rec.version.Ipfix? then Ipfix else NetflowV9;
      var ctx := Ctx(key.exporter, key.domain, version, rec.exportTime, rec.sequence, rec.sysUptime, key.templateId);
      var more := DecodePayload(tpl.kind, tpl.fields, rec.payload, ctx, flowsOnly);
      SettleFrom(key, recs, i, tpl, flowsOnly);
      rows := rows + more;
    }
    assert recs[|recs|..] == [] && rows + [] == rows;
  }

  method RetryOne(key: TemplateKey, now: i64, flowsOnly: bool, cache: TemplateCache)
    returns (rows: seq<FlowRecord>, ghost log: seq<Event>)
    modifies cache
    ensures Outcome(cache.Model(), log) == RetryKey(old(cache.Model()), key, now, flowsOnly)
    ensures rows == RowsOf(log)
  {
    hide Settle, Take, Touch;
    rows, log := [], [];
    var tpl := cache.UseTemplate(key, now);
    if tpl.None? {
      return;
    }
    var recs := cache.TakePending(key);
    rows := SettleRecords(key, recs, tpl.value, flowsOnly);
    log := Settle(key, recs, tpl.value, flowsOnly);
  }

  /** Drain and decode every waiting key whose template is now known, in key order. */
  method RetryPending(now: i64, flowsOnly: bool, cache: TemplateCache)
    returns (rows: seq<FlowRecord>, ghost log: seq<Event>)
    modifies cache
    ensures Outcome(cache.Model(), log) == Retry(old(cache.Model()), now, flowsOnly)
    ensures rows == RowsOf(log)
  {
    hide RetryKey, RowsOf;
    rows, log := [], [];
    NoRows();
    var keys := cache.PendingKeys();
    ghost var all := RetryKeys(cache.Model(), keys, now, flowsOnly);
    assert keys[0..] == keys;
    AfterAssociates([], [], all);
    for i := 0 to |keys|
      invariant all == After(log, RetryKeys(cache.Model(), keys[i..], now, flowsOnly))
      invariant rows == RowsOf(log)
    {
      assert keys[i..][1..] == keys[i + 1..];
      ghost var one := RetryKey(cache.Model(), keys[i], now, flowsOnly);
      AfterAssociates(log, one.events, RetryKeys(one.cache, keys[i + 1..], now, flowsOnly));
      var more;
      ghost var events;
      more, events := RetryOne(keys[i], now, flowsOnly, cache);
      RowsOfConcat(log, events);
      rows, log := rows + more, log + events;
    }
    AfterAssociates(log, [], Outcome(cache.Model(), []));
  }

  method DirectRows(row: FlowRecord) returns (rows: seq<FlowRecord>, ghost log: seq<Event>)
    ensures rows == [row] && log == [Direct([row])] && rows == RowsOf(log)
  {
    rows := [row];
    log := [Direct(rows)];
    RowsOfOne([], [], log[0]);
  }

  method Dispatch(ext: Externals, i: Input, cache: TemplateCache)
    returns (rows: seq<FlowRecord>, ghost log: seq<Event>)
    modifies cache
    ensures Outcome(cache.Model(), log) == DecodeByVersion(ext, old(cache.Model()), i)
    ensures rows == RowsOf(log)
  {
    hide Probe, FrameOf, V5.Decode, DecodeFrame;
    var probed := Probe(i.data);
    if probed.None? {
      rows, log := DirectRows(Diagnostic(i.opts.exporter, None, 0, None, None, NotAFlowDatagram));
      return;
    }
    var v := probed.value;
    if !i.restrict.Accepts(v) {
      rows, log := DirectRows(Diagnostic(i.opts.exporter, Some(v), 0, None, None, NotAcceptedHere(v)));
      return;
    }
    match v {
      case NetflowV5 =>
        rows := V5.DecodeDatagram(i.data, i.opts.exporter);
        log := [Direct(rows)];
        RowsOfOne([], [], log[0]);
        assert [] + rows == rows;
      case Sflow5 =>
        rows := ext.sflow(i.data, i.opts.exporter, i.opts.mode.DropsOptions());
        log := [Direct(rows)];
        RowsOfOne([], [], log[0]);
        assert [] + rows == rows;
      case _ =>
        rows, log := DecodeSets(ext, v, i.data, i.opts, cache);
    }
  }

  method DecodeOne(ext: Externals, i: Input, cache: TemplateCache)
    returns (rows: seq<FlowRecord>, ghost log: seq<Event>)
    modifies cache
    ensures Outcome(cache.Model(), log) == DecodeDatagram(ext, old(cache.Model()), i)
    ensures rows == RowsOf(log)
  {
    hide DecodeByVersion, Retry, RowsOf;
    rows, log := Dispatch(ext, i, cache);
    var probed := Probe(i.data);
    if probed in {Some(NetflowV9), Some(Ipfix)} && cache.pending != map[] {
      var more;
      ghost var events;
      more, events := RetryPending(i.opts.now, i.opts.mode.DropsOptions(), cache);
      RowsOfConcat(log, events);
      rows, log := rows + more, log + events;
    }
  }

  /** End of scan: every waiting Data Set becomes a missing-template row. */
  method FlushAll(cache: TemplateCache) returns (rows: seq<FlowRecord>, ghost log: seq<Event>)
    modifies cache
    ensures Outcome(cache.Model(), log) == FlushPending(old(cache.Model()))
    ensures rows == RowsOf(log)
  {
    hide FlushPairs, RowsOf;
    var all := cache.DrainPending();
    rows, log := FlushEach(all);
  }

  method FlushEach(all: seq<(TemplateKey, seq<PendingRecord>)>) returns (rows: seq<FlowRecord>, ghost log: seq<Event>)
    ensures log == FlushPairs(all)
    ensures rows == RowsOf(log)
  {
    hide FlushRecords, RowsOf, FlushVersion;
    rows, log := [], [];
    NoRows();
    assert all[0..] == all && [] + FlushPairs(all) == FlushPairs(all);
    for i := 0 to |all|
      invariant log + FlushPairs(all[i..]) == FlushPairs(all)
      invariant rows == RowsOf(log)
    {
      var (key, recs) := all[i];
      assert all[i..][1..] == all[i + 1..];
      var more := FlushKey(key, recs);
      ghost var events := FlushRecords(key, recs, FlushVersion(recs));
      RowsOfConcat(log, events);
      assert log + (events + FlushPairs(all[i + 1..])) == log + events + FlushPairs(all[i + 1..]);
      rows, log := rows + more, log + events;
    }
    assert log + [] == log;
  }

  lemma FlushFrom(key: TemplateKey, recs: seq<PendingRecord>, i: nat, v: Version)
    requires i < |recs|
    ensures RowsOf(FlushRecords(key, recs[i..], v))
         == [MissingRow(key, v, recs[i])] + RowsOf(FlushRecords(key, recs[i + 1..], v))
  {
    hide MissingRow;
    assert recs[i..][1..] == recs[i + 1..];
    var es := FlushRecords(key, recs[i..], v);
    assert es[1..] == FlushRecords(key, recs[i + 1..], v);
  }

  lemma FlushNothing(key: TemplateKey, v: Version)
    ensures RowsOf(FlushRecords(key, [], v)) == []
  {
  }

  method FlushKey(key: TemplateKey, recs: seq<PendingRecord>) returns (rows: seq<FlowRecord>)
    ensures rows == RowsOf(FlushRecords(key, recs, FlushVersion(recs)))
  {
    var version := if |recs| > 0 && recs[0].version.Ipfix? then Ipfix else NetflowV9;
    assert version == FlushVersion(recs);
    hide FlushVersion, FlushRecords, RowsOf;
    rows := [];
    ghost var all := RowsOf(FlushRecords(key, recs, version));
    assert recs[0..] == recs && [] + all == all;
    for i := 0 to |recs|
      invariant rows + RowsOf(FlushRecords(key, recs[i..], version)) == all
    {
      var row := Diagnostic(key.exporter, Some(version), key.domain, recs[i].exportTime, recs[i].sequence,
                   MissingTemplate(key.domain, key.templateId));
      FlushFrom(key, recs, i, version);
      rows := rows + [row];
    }
    assert recs[|recs|..] == [] && rows + [] == rows;
    FlushNothing(key, version);
  }

  /** One scan's access to storage, which may be absent. */
  class ScanState {
    var storage: Storage

    constructor (storage: Storage)
      ensures this.storage == storage
    {
      this.storage := storage;
    }

    method LoadCache() returns (cache: TemplateCache)
      ensures fresh(cache) && cache.Model() == Load(storage)
    {
      if storage.Some? {
        cache := new TemplateCache.Rehydrate(storage.value.scan);
      } else {
        cache := new TemplateCache();
      }
    }

    /** Store the cache, then mirror its entries into the process-wide projection. */
    method StoreCache(cache: TemplateCache)
      modifies this
      ensures storage == Save(old(storage), old(cache.Model()))
    {
      hide Upsert, FromToken;
      if storage.None? {
        return;
      }
      var scan := cache.Serialize();
      var global := new TemplateCache.Rehydrate(storage.value.global);
      var keys := ListKeys(cache.entries.Keys);
      assert keys[0..] == keys;
      for i := 0 to |keys|
        invariant fresh(global) && storage == old(storage) && cache.entries == old(cache.entries)
        invariant Mirror(global.Model(), cache.entries, keys[i..])
               == MirrorAll(FromToken(storage.value.global), cache.entries)
      {
        assert keys[i..][1..] == keys[i + 1..];
        assert keys[i] in keys;
        global.Insert(keys[i], cache.entries[keys[i]]);
      }
      var mirrored := global.Serialize();
      storage := Some(Store(scan, mirrored));
    }

    /** One input batch; a missing datagram yields no rows. */
    method Process(ext: Externals, batch: seq<Option<Input>>) returns (rows: seq<FlowRecord>, ghost log: seq<Event>)
      modifies this
      ensures BatchOutcome(storage, log) == RunBatch(ext, old(storage), StepsOf(batch))
      ensures rows == RowsOf(log)
    {
      hide DecodeDatagram, RowsOf, Load, Save, Run;
      var cache := LoadCache();
      rows, log := [], [];
      NoRows();
      ghost var all := Run(ext, cache.Model(), StepsOf(batch));
      assert batch[0..] == batch;
      AfterAssociates([], [], all);
      for i := 0 to |batch|
        invariant fresh(cache) && storage == old(storage)
        invariant all == After(log, Run(ext, cache.Model(), StepsOf(batch[i..])))
        invariant rows == RowsOf(log)
      {
        assert batch[i..][1..] == batch[i + 1..];
        if batch[i].Some? {
          ghost var step := Datagram(batch[i].value);
          assert StepsOf(batch[i..]) == [step] + StepsOf(batch[i + 1..]);
          RunUnfold(ext, cache.Model(), step, StepsOf(batch[i + 1..]), log);
          var more;
          ghost var events;
          more, events := DecodeOne(ext, batch[i].value, cache);
          RowsOfConcat(log, events);
          rows, log := rows + more, log + events;
        } else {
          assert [] + StepsOf(batch[i + 1..]) == StepsOf(batch[i + 1..]);
        }
      }
      RunUnfold(ext, cache.Model(), Rehydrate, [], log);
      AfterAssociates(log, [], Outcome(cache.Model(), []));
      StoreCache(cache);
    }

    /** End of input: flush what still waits. */
    method Finish(ext: Externals) returns (rows: seq<FlowRecord>, ghost log: seq<Event>)
      modifies this
      ensures BatchOutcome(storage, log) == RunBatch(ext, old(storage), [Flush])
      ensures rows == RowsOf(log)
    {
      hide FlushPending, RowsOf, Load, Save;
      var cache := LoadCache();
      RunUnfold(ext, cache.Model(), Flush, [], []);
      ghost var before := cache.Model();
      rows, log := FlushAll(cache);
      AfterAssociates([], [], Run(ext, before, [Flush]));
      AfterAssociates(log, [], Outcome(cache.Model(), []));
      assert [Flush] + [] == [Flush] && [] + log == log;
      StoreCache(cache);
    }
  }

  function StepsOf(batch: seq<Option<Input>>): seq<Step> {
    if batch == [] then []
    else (if batch[0].Some? then [Datagram(batch[0].value)] else []) + StepsOf(batch[1..])
  }

  /** The steps of a batch are its present datagrams, all of them, in order. */
  lemma {:induction false} StepsOfPresent(a: seq<Option<Input>>, b: seq<Option<Input>>, i: Input)
    ensures StepsOf([]) == [] && StepsOf([None]) == [] && StepsOf([Some(i)]) == [Datagram(i)]
    ensures StepsOf(a + b) == StepsOf(a) + StepsOf(b)
  {
    var missing: seq<Option<Input>> := [None];
    assert missing[1..] == [] && [Some(i)][1..] == [];
    if a == [] {
      assert a + b == b;
    } else {
      assert (a + b)[0] == a[0] && (a + b)[1..] == a[1..] + b;
      StepsOfPresent(a[1..], b, i);
      var first := if a[0].Some? then [Datagram(a[0].value)] else [];
      assert first + (StepsOf(a[1..]) + StepsOf(b)) == first + StepsOf(a[1..]) + StepsOf(b);
    }
  }

  lemma RunUnfold(ext: Externals, c: CacheState, s: Step, more: seq<Step>, log: seq<Event>)
    ensures var one := DoStep(ext, c, s);
      After(log, Run(ext, c, [s] + more)) == After(log + one.events, Run(ext, one.cache, more))
    ensures Run(ext, c, []) == Outcome(c, [])
  {
    assert ([s] + more)[1..] == more;
    var one := DoStep(ext, c, s);
    AfterAssociates(log, one.events, Run(ext, one.cache, more));
    hide DoStep;
  }
}

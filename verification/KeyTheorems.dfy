/** What the per-key view gives for whole runs. */
module KeyTheorems {
  import opened Wire
  import opened Flow
  import opened KeyOrder
  import opened CacheSpec
  import opened DataSet
  import opened Headers
  import opened Scan
  import opened Invariants
  import opened KeyView

  /** A key at rest: nothing waits once a layout is known. */
  predicate AtRest(s: KeyState) {
    s.layout.Some? ==> s.waiting == []
  }

  predicate Idle(a: KeyAct) {
    a.Bring? && a.defs == [] && a.records == []
  }

  lemma IdleDoesNothing(key: TemplateKey, s: KeyState, a: KeyAct)
    requires AtRest(s) && Idle(a)
    ensures KeyStep(key, s, a) == KeyOutcome(s, [])
  {
    assert s.waiting + [] == s.waiting;
    hide DecodeDataSet, DeferredCtx;
  }

  lemma QuietIsAtRest(c: CacheState, key: TemplateKey)
    requires Quiet(c)
    ensures AtRest(View(c, key))
  {
  }

  lemma KeyStepRests(key: TemplateKey, s: KeyState, a: KeyAct)
    requires AtRest(s)
    ensures AtRest(KeyStep(key, s, a).state)
  {
    hide DecodeAll, FlushRecords;
  }

  lemma UnframedView(ext: Externals, c: CacheState, i: Input, key: TemplateKey)
    requires Quiet(c) && InputFrame(i).None?
    ensures var o := DecodeDatagram(ext, c, i);
      KeyOutcome(View(o.cache, key), EventsFor(o.events, key))
      == KeyStep(key, View(c, key), ActOf(ext, Datagram(i), key))
  {
    hide Probe, RetryKeys;
    ByVersion(ext, c, i);
    var fo := i.opts.mode.DropsOptions();
    var o1 := DecodeByVersion(ext, c, i);
    hide InputFrame, DecodeByVersion;
    var keys := SortedKeys(c.pending.Keys);
    SortedIncreasing(c.pending.Keys);
    RetryView(c, keys, i.opts.now, fo, key);
    var r := RetryKeys(c, keys, i.opts.now, fo);
    assert key in keys <==> key in c.pending.Keys;
    QuietIsAtRest(c, key);
    IdleDoesNothing(key, View(c, key), ActOf(ext, Datagram(i), key));
    EventsForOne(o1.events[0], key);
    assert o1.events == [o1.events[0]];
    EventsForConcat(o1.events, r.events, key);
    hide EventsFor, KeyStep, DecodeAll;
  }

  lemma {:induction false} FlushRecordsView(k: TemplateKey, recs: seq<PendingRecord>, v: Version, key: TemplateKey)
    ensures EventsFor(FlushRecords(k, recs, v), key) == if k == key then FlushRecords(k, recs, v) else []
  {
    hide MissingRow;
    if recs != [] {
      FlushRecordsView(k, recs[1..], v, key);
      var first := FlushRecords(k, recs, v)[0];
      EventsForConcat([first], FlushRecords(k, recs[1..], v), key);
      EventsForOne(first, key);
    }
  }

  lemma {:induction false} FlushPairsView(p: Pending, ks: seq<TemplateKey>, key: TemplateKey)
    requires Increasing(ks) && forall k :: k in ks ==> k in p
    ensures EventsFor(FlushPairs(PairUp(p, ks)), key)
         == if key in ks then FlushRecords(key, p[key], FlushVersion(p[key])) else []
  {
    if ks != [] {
      var first := FlushRecords(ks[0], p[ks[0]], FlushVersion(p[ks[0]]));
      assert PairUp(p, ks)[1..] == PairUp(p, ks[1..]);
      FlushRecordsView(ks[0], p[ks[0]], FlushVersion(p[ks[0]]), key);
      FlushPairsView(p, ks[1..], key);
      EventsForConcat(first, FlushPairs(PairUp(p, ks[1..])), key);
      KeyTotal(ks[0], ks[0]);
      assert ks[0] !in ks[1..];
      hide FlushRecords, EventsFor, KeyLess, FlushVersion;
    }
  }

  lemma FlushView(c: CacheState, key: TemplateKey)
    ensures var o := FlushPending(c);
      KeyOutcome(View(o.cache, key), EventsFor(o.events, key)) == KeyStep(key, View(c, key), GiveUp)
  {
    hide FlushPairs, EventsFor, FlushVersion;
    SortedIncreasing(c.pending.Keys);
    FlushPairsView(c.pending, SortedKeys(c.pending.Keys), key);
    assert key in SortedKeys(c.pending.Keys) <==> key in c.pending.Keys;
  }

  // The order of rows.

  /** Events that each settle a Data Set, keys in map order, no key twice apart. */
  ghost predicate Ascending(es: seq<Event>) {
    && (forall e :: e in es ==> e.Settled?)
    && forall i, j :: 0 <= i < j < |es| ==> NotAfter(es[i].item.key, es[j].item.key)
  }

  predicate NotAfter(a: TemplateKey, b: TemplateKey) {
    a == b || KeyLess(a, b)
  }

  /** All events of one key, and then the ascending events of greater ones. */
  lemma AscendingConcat(a: seq<Event>, k: TemplateKey, b: seq<Event>)
    requires forall e :: e in a ==> e.Settled? && e.item.key == k
    requires Ascending(b) && forall e :: e in b ==> KeyLess(k, e.item.key)
    ensures Ascending(a + b)
  {
    hide KeyLess;
  }

  lemma {:induction false} SettleOfKey(key: TemplateKey, recs: seq<PendingRecord>, e: TemplateEntry, fo: bool)
    ensures forall ev :: ev in Settle(key, recs, e, fo) ==> ev.Settled? && ev.item.key == key
  {
    hide DecodeWith, DeferredCtx;
    if recs != [] {
      SettleOfKey(key, recs[1..], e, fo);
    }
  }

  lemma {:induction false} FlushOfKey(key: TemplateKey, recs: seq<PendingRecord>, v: Version)
    ensures forall ev :: ev in FlushRecords(key, recs, v) ==> ev.Settled? && ev.item.key == key
  {
    hide MissingRow;
    if recs != [] {
      FlushOfKey(key, recs[1..], v);
    }
  }

  lemma {:induction false} FlushAscends(p: Pending, ks: seq<TemplateKey>)
    requires Increasing(ks) && forall k :: k in ks ==> k in p
    ensures var es := FlushPairs(PairUp(p, ks)); Ascending(es) && forall e :: e in es ==> e.item.key in ks
  {
    hide KeyLess, FlushRecords, FlushVersion;
    if ks != [] {
      assert PairUp(p, ks)[1..] == PairUp(p, ks[1..]);
      FlushOfKey(ks[0], p[ks[0]], FlushVersion(p[ks[0]]));
      FlushAscends(p, ks[1..]);
      AscendingConcat(FlushRecords(ks[0], p[ks[0]], FlushVersion(p[ks[0]])), ks[0], FlushPairs(PairUp(p, ks[1..])));
    }
  }

  lemma {:induction false} RetryAscends(c: CacheState, ks: seq<TemplateKey>, now: i64, fo: bool)
    requires Increasing(ks)
    ensures var es := RetryKeys(c, ks, now, fo).events; Ascending(es) && forall e :: e in es ==> e.item.key in ks
    decreases |ks|
  {
    hide KeyLess, Settle, Take, Touch;
    if ks != [] {
      var one := RetryKey(c, ks[0], now, fo);
      var c' := Use(c, ks[0], now);
      if ks[0] in c.entries {
        SettleOfKey(ks[0], WaitingAt(c'.pending, ks[0]), c'.entries[ks[0]], fo);
      }
      RetryAscends(one.cache, ks[1..], now, fo);
      AscendingConcat(one.events, ks[0], RetryKeys(one.cache, ks[1..], now, fo).events);
      hide RetryKey;
    }
  }

  /** A flush and a retry go through the keys in map order: exporter, then domain, then template id. */
  lemma RowsInKeyOrder(c: CacheState, now: i64, fo: bool)
    ensures Ascending(FlushPending(c).events) && Ascending(Retry(c, now, fo).events)
  {
    SortedIncreasing(c.pending.Keys);
    FlushAscends(c.pending, SortedKeys(c.pending.Keys));
    RetryAscends(c, SortedKeys(c.pending.Keys), now, fo);
    hide FlushPairs, RetryKeys, Ascending;
  }

  /** What a flush labels right, for every key, in every scan: exactly the keys whose records are of one version. */
  lemma ScanLabelsRightIff(ext: Externals, steps: seq<Step>, key: TemplateKey)
    ensures var c := Run(ext, EmptyCache(), steps).cache;
      var recs := WaitingAt(c.pending, key);
      LabelsRight(key, recs, EventsFor(DoStep(ext, c, Flush).events, key)) <==> OneVersion(recs)
  {
    var c := Run(ext, EmptyCache(), steps).cache;
    RunKeepsVersions(ext, EmptyCache(), steps);
    FlushLabelsRightIff(key, WaitingAt(c.pending, key));
    FlushView(c, key);
    hide Run, LabelsRight, OneVersion, EventsFor, FlushPending;
  }

  /** Every step that reaches neither cap moves every key exactly as the reference machine does. */
  lemma StepRefines(ext: Externals, c: CacheState, s: Step, key: TemplateKey)
    requires Valid(c) && Quiet(c) && FitsCaps(ext, c, s)
    ensures var o := DoStep(ext, c, s);
      KeyOutcome(View(o.cache, key), EventsFor(o.events, key)) == KeyStep(key, View(c, key), ActOf(ext, s, key))
  {
    hide DecodeDatagram, KeyStep, FromDto, ToDto, FlushPending, Valid;
    match s
    case Datagram(i) =>
      if InputFrame(i).Some? {
        FrameView(ext, c, i, key);
      } else {
        UnframedView(ext, c, i, key);
      }
      hide InputFrame, ActOf, EventsFor, View, Quiet;
    case Rehydrate =>
      RehydrateIdentity(c);
      QuietIsAtRest(c, key);
      IdleDoesNothing(key, View(c, key), Bring([], [], false));
      hide Quiet;
    case Flush =>
      FlushView(c, key);
      hide EventsFor, View, Quiet;
  }

  /** And so does every run. */
  lemma {:induction false} RunRefines(ext: Externals, c: CacheState, steps: seq<Step>, key: TemplateKey)
    requires Valid(c) && Quiet(c) && RunFitsCaps(ext, c, steps)
    ensures var o := Run(ext, c, steps);
      KeyOutcome(View(o.cache, key), EventsFor(o.events, key)) == KeyRun(key, View(c, key), ActsOf(ext, steps, key))
    decreases |steps|
  {
    hide Valid, Quiet, FitsCaps, DoStep, View, KeyStep, ActOf;
    if steps != [] {
      var one := DoStep(ext, c, steps[0]);
      StepKeeps(ext, c, steps[0]);
      StepRefines(ext, c, steps[0], key);
      RunRefines(ext, one.cache, steps[1..], key);
      EventsForConcat(one.events, Run(ext, one.cache, steps[1..]).events, key);
      assert ActsOf(ext, steps, key)[1..] == ActsOf(ext, steps[1..], key);
      hide EventsFor;
    } else {
      EventsForOne(Direct([]), key);
    }
  }

  // A key depends only on its own templates and Data Sets.

  function Relevant(acts: seq<KeyAct>): seq<KeyAct> {
    if acts == [] then []
    else (if Idle(acts[0]) then [] else [acts[0]]) + Relevant(acts[1..])
  }

  lemma {:induction false} IdleActsVanish(key: TemplateKey, s: KeyState, acts: seq<KeyAct>)
    requires AtRest(s)
    ensures KeyRun(key, s, acts) == KeyRun(key, s, Relevant(acts))
    decreases |acts|
  {
    hide KeyStep, AtRest;
    if acts != [] {
      if Idle(acts[0]) {
        IdleDoesNothing(key, s, acts[0]);
        IdleActsVanish(key, s, acts[1..]);
        assert [] + KeyRun(key, s, acts[1..]).events == KeyRun(key, s, acts[1..]).events;
        assert [] + Relevant(acts[1..]) == Relevant(acts[1..]);
      } else {
        KeyStepRests(key, s, acts[0]);
        IdleActsVanish(key, KeyStep(key, s, acts[0]).state, acts[1..]);
        assert Relevant(acts)[1..] == Relevant(acts[1..]);
      }
    }
  }

  /**
   * Non-interference at the level of one key: any two runs, from any two caches that agree on the key, in which the
   * key receives the same templates and Data Sets, settle that key's Data Sets with the same rows and leave it in
   * the same state, whatever else the two runs carry.
   */
  lemma OnlyOwnTrafficMatters(
    ext: Externals, c: CacheState, d: CacheState, left: seq<Step>, right: seq<Step>, key: TemplateKey)
    requires Valid(c) && Quiet(c) && RunFitsCaps(ext, c, left)
    requires Valid(d) && Quiet(d) && RunFitsCaps(ext, d, right)
    requires View(c, key) == View(d, key)
    requires Relevant(ActsOf(ext, left, key)) == Relevant(ActsOf(ext, right, key))
    ensures EventsFor(Run(ext, c, left).events, key) == EventsFor(Run(ext, d, right).events, key)
    ensures View(Run(ext, c, left).cache, key) == View(Run(ext, d, right).cache, key)
  {
    RunRefines(ext, c, left, key);
    RunRefines(ext, d, right, key);
    QuietIsAtRest(c, key);
    IdleActsVanish(key, View(c, key), ActsOf(ext, left, key));
    IdleActsVanish(key, View(c, key), ActsOf(ext, right, key));
    hide Run, KeyRun, EventsFor, View, Relevant, ActsOf;
  }

  // Deferred decoding equals immediate decoding.

  /** Acts that only bring Data Sets, all decoded in one mode. */
  predicate OnlyData(acts: seq<KeyAct>, flowsOnly: bool) {
    forall i :: 0 <= i < |acts| ==>
      acts[i].Bring? && acts[i].defs == [] && (acts[i].records != [] ==> acts[i].flowsOnly == flowsOnly)
  }

  function AllRecords(acts: seq<KeyAct>): seq<PendingRecord> {
    if acts == [] then []
    else (if acts[0].Bring? then acts[0].records else []) + AllRecords(acts[1..])
  }

  /** Without a layout, Data Sets only pile up. */
  lemma {:induction false} DataWaits(key: TemplateKey, waiting: seq<PendingRecord>, acts: seq<KeyAct>, fo: bool)
    requires OnlyData(acts, fo)
    ensures KeyRun(key, KeyState(None, waiting), acts) == KeyOutcome(KeyState(None, waiting + AllRecords(acts)), [])
    decreases |acts|
  {
    if acts == [] {
      assert waiting + [] == waiting;
    } else {
      var first := acts[0].records;
      assert KeyStep(key, KeyState(None, waiting), acts[0]) == KeyOutcome(KeyState(None, waiting + first), []);
      DataWaits(key, waiting + first, acts[1..], fo);
      assert waiting + first + AllRecords(acts[1..]) == waiting + (first + AllRecords(acts[1..]));
      hide KeyStep;
    }
  }

  function PayloadRows(key: TemplateKey, recs: seq<PendingRecord>, l: Layout, fo: bool): seq<FlowRecord> {
    if recs == [] then []
    else
      DecodeDataSet(l.kind, l.fields, recs[0].payload, DeferredCtx(Item(key, recs[0])), fo)
      + PayloadRows(key, recs[1..], l, fo)
  }

  lemma {:induction false} RowsOfDecodeAll(key: TemplateKey, recs: seq<PendingRecord>, fate: Fate, l: Layout, fo: bool)
    ensures RowsOf(DecodeAll(key, recs, fate, l, fo)) == PayloadRows(key, recs, l, fo)
  {
    hide DecodeDataSet, DeferredCtx;
    if recs != [] {
      RowsOfDecodeAll(key, recs[1..], fate, l, fo);
      var es := DecodeAll(key, recs, fate, l, fo);
      assert es[1..] == DecodeAll(key, recs[1..], fate, l, fo);
    }
  }

  lemma {:induction false} PayloadRowsConcat(
    key: TemplateKey, a: seq<PendingRecord>, b: seq<PendingRecord>, l: Layout, fo: bool)
    ensures PayloadRows(key, a + b, l, fo) == PayloadRows(key, a, l, fo) + PayloadRows(key, b, l, fo)
  {
    hide DecodeDataSet, DeferredCtx;
    if a == [] {
      assert a + b == b;
    } else {
      assert (a + b)[1..] == a[1..] + b;
      PayloadRowsConcat(key, a[1..], b, l, fo);
    }
  }

  /** With a layout, Data Sets are decoded as they come. */
  lemma {:induction false} DataDecodes(key: TemplateKey, l: Layout, acts: seq<KeyAct>, fo: bool)
    requires OnlyData(acts, fo)
    ensures var o := KeyRun(key, KeyState(Some(l), []), acts);
      o.state == KeyState(Some(l), []) && RowsOf(o.events) == PayloadRows(key, AllRecords(acts), l, fo)
    decreases |acts|
  {
    if acts != [] {
      var recs := acts[0].records;
      var one := KeyStep(key, KeyState(Some(l), []), acts[0]);
      var more := KeyRun(key, KeyState(Some(l), []), acts[1..]);
      assert one.state == KeyState(Some(l), []);
      OneDecodedRows(key, l, acts[0], fo);
      DataDecodes(key, l, acts[1..], fo);
      RowsOfConcat(one.events, more.events);
      PayloadRowsConcat(key, recs, AllRecords(acts[1..]), l, fo);
      hide KeyStep, PayloadRows, RowsOf;
    }
  }

  lemma OneDecodedRows(key: TemplateKey, l: Layout, a: KeyAct, fo: bool)
    requires a.Bring? && a.defs == [] && (a.records != [] ==> a.flowsOnly == fo)
    ensures RowsOf(KeyStep(key, KeyState(Some(l), []), a).events) == PayloadRows(key, a.records, l, fo)
  {
    var es := DecodeAll(key, a.records, Decoded, l, a.flowsOnly);
    OneDecoded(key, PendingRecord(None, None, Ipfix, None, []), Retried, l, a.flowsOnly);
    assert es + [] == es;
    RowsOfDecodeAll(key, a.records, Decoded, l, a.flowsOnly);
    assert a.records == [] ==> PayloadRows(key, a.records, l, fo) == PayloadRows(key, a.records, l, a.flowsOnly);
    hide DecodeAll, PayloadRows, RowsOf;
  }

  /** The template's own step: its Data Sets first, then all that waited. */
  lemma TemplateStepRows(key: TemplateKey, waiting: seq<PendingRecord>, t: KeyAct)
    requires t.Bring? && t.defs != []
    ensures var l := t.defs[|t.defs| - 1];
      var o := KeyStep(key, KeyState(None, waiting), t);
      && o.state == KeyState(Some(l), [])
      && RowsOf(o.events) == PayloadRows(key, t.records + waiting, l, t.flowsOnly)
  {
    var l := t.defs[|t.defs| - 1];
    RowsOfDecodeAll(key, t.records, Decoded, l, t.flowsOnly);
    RowsOfDecodeAll(key, waiting, Retried, l, t.flowsOnly);
    RowsOfConcat(DecodeAll(key, t.records, Decoded, l, t.flowsOnly), DecodeAll(key, waiting, Retried, l, t.flowsOnly));
    PayloadRowsConcat(key, t.records, waiting, l, t.flowsOnly);
    hide DecodeAll, PayloadRows, RowsOf;
  }

  lemma {:induction false} KeyRunConcat(key: TemplateKey, s: KeyState, a: seq<KeyAct>, b: seq<KeyAct>)
    ensures var first := KeyRun(key, s, a);
      var second := KeyRun(key, first.state, b);
      KeyRun(key, s, a + b) == KeyOutcome(second.state, first.events + second.events)
    decreases |a|
  {
    hide KeyStep;
    if a == [] {
      assert a + b == b;
    } else {
      assert (a + b)[1..] == a[1..] + b;
      KeyRunConcat(key, KeyStep(key, s, a[0]).state, a[1..], b);
    }
  }

  lemma OneAct(key: TemplateKey, s: KeyState, a: KeyAct)
    ensures KeyRun(key, s, [a]) == KeyStep(key, s, a)
  {
    assert [a][1..] == [];
    hide KeyStep;
  }

  /** For one key: a template after any number of Data Sets gives the same rows, in the same order, as before them. */
  lemma TemplateLateOrEarly(key: TemplateKey, waiting: seq<PendingRecord>, data: seq<KeyAct>, t: KeyAct)
    requires t.Bring? && t.defs != [] && OnlyData(data, t.flowsOnly)
    ensures var late := KeyRun(key, KeyState(None, waiting), data + [t]);
      var early := KeyRun(key, KeyState(None, waiting), [t] + data);
      late.state == early.state && RowsOf(late.events) == RowsOf(early.events)
  {
    hide KeyRun, AllRecords, OnlyData;
    var all := AllRecords(data);
    TemplateLate(key, waiting, data, t);
    TemplateEarly(key, waiting, data, t);
    assert t.records + waiting + all == t.records + (waiting + all);
  }

  lemma TemplateLate(key: TemplateKey, waiting: seq<PendingRecord>, data: seq<KeyAct>, t: KeyAct)
    requires t.Bring? && t.defs != [] && OnlyData(data, t.flowsOnly)
    ensures var o := KeyRun(key, KeyState(None, waiting), data + [t]);
      var l := t.defs[|t.defs| - 1];
      && o.state == KeyState(Some(l), [])
      && RowsOf(o.events) == PayloadRows(key, t.records + (waiting + AllRecords(data)), l, t.flowsOnly)
  {
    hide KeyStep, KeyRun, AllRecords, OnlyData, PayloadRows;
    var all := AllRecords(data);
    DataWaits(key, waiting, data, t.flowsOnly);
    TemplateStepRows(key, waiting + all, t);
    OneAct(key, KeyState(None, waiting + all), t);
    KeyRunConcat(key, KeyState(None, waiting), data, [t]);
    var last := KeyRun(key, KeyState(None, waiting + all), [t]).events;
    assert [] + last == last;
  }

  lemma TemplateEarly(key: TemplateKey, waiting: seq<PendingRecord>, data: seq<KeyAct>, t: KeyAct)
    requires t.Bring? && t.defs != [] && OnlyData(data, t.flowsOnly)
    ensures var o := KeyRun(key, KeyState(None, waiting), [t] + data);
      var l := t.defs[|t.defs| - 1];
      && o.state == KeyState(Some(l), [])
      && RowsOf(o.events) == PayloadRows(key, t.records + waiting + AllRecords(data), l, t.flowsOnly)
  {
    hide KeyStep, KeyRun, AllRecords, OnlyData, PayloadRows;
    var s, l := KeyState(None, waiting), t.defs[|t.defs| - 1];
    TemplateStepRows(key, waiting, t);
    OneAct(key, s, t);
    DataDecodes(key, l, data, t.flowsOnly);
    KeyRunConcat(key, s, [t], data);
    RowsOfConcat(KeyStep(key, s, t).events, KeyRun(key, KeyState(Some(l), []), data).events);
    PayloadRowsConcat(key, t.records + waiting, AllRecords(data), l, t.flowsOnly);
  }

  lemma {:induction false} ActsOfConcat(ext: Externals, a: seq<Step>, b: seq<Step>, key: TemplateKey)
    ensures ActsOf(ext, a + b, key) == ActsOf(ext, a, key) + ActsOf(ext, b, key)
  {
    hide ActOf;
    if a == [] {
      assert a + b == b;
    } else {
      assert (a + b)[1..] == a[1..] + b;
      ActsOfConcat(ext, a[1..], b, key);
    }
  }

  /**
   * Deferred decode equals immediate decode, over whole runs. Take any datagrams that define nothing for a key and
   * a datagram that does. Whether the template comes after all of them or before, the rows for that key are the
   * same, in the same order, and the key ends in the same state.
   */
  lemma DeferredEqualsImmediate(ext: Externals, c: CacheState, data: seq<Step>, template: Step, key: TemplateKey)
    requires Valid(c) && Quiet(c) && key !in c.entries
    requires template.Datagram? && ActOf(ext, template, key).defs != []
    requires OnlyData(ActsOf(ext, data, key), ActOf(ext, template, key).flowsOnly)
    requires RunFitsCaps(ext, c, data + [template]) && RunFitsCaps(ext, c, [template] + data)
    ensures var late := Run(ext, c, data + [template]);
      var early := Run(ext, c, [template] + data);
      && RowsOf(EventsFor(late.events, key)) == RowsOf(EventsFor(early.events, key))
      && View(late.cache, key) == View(early.cache, key)
  {
    var t := ActOf(ext, template, key);
    RunRefines(ext, c, data + [template], key);
    RunRefines(ext, c, [template] + data, key);
    ActsOfConcat(ext, data, [template], key);
    ActsOfConcat(ext, [template], data, key);
    assert ActsOf(ext, [template], key) == [t] by {
      assert [template][1..] == [];
      hide ActOf;
    }
    TemplateLateOrEarly(key, WaitingAt(c.pending, key), ActsOf(ext, data, key), t);
    assert View(c, key) == KeyState(None, WaitingAt(c.pending, key));
    hide Run, KeyRun, EventsFor, View, ActsOf, ActOf, OnlyData, RowsOf;
  }
}

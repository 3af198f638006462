/**
 * The scan seen from one template key. While neither cap is reached, the whole cache behaves as a family of
 * independent two-state machines, one per key: waiting for a layout, or decoding against it.
 */
module KeyView {
  import opened Wire
  import opened Flow
  import opened KeyOrder
  import opened CacheSpec
  import opened DataSet
  import opened Framing
  import opened Headers
  import opened Templates
  import opened Scan
  import opened Truth
  import opened Invariants

  datatype KeyState = KeyState(layout: Option<Layout>, waiting: seq<PendingRecord>)

  /** What a step brings to one key. */
  datatype KeyAct =
    | Bring(defs: seq<Layout>, records: seq<PendingRecord>, flowsOnly: bool)
    | GiveUp

  datatype KeyOutcome = KeyOutcome(state: KeyState, events: seq<Event>)

  function DecodeAll(key: TemplateKey, recs: seq<PendingRecord>, fate: Fate, l: Layout, flowsOnly: bool): seq<Event> {
    if recs == [] then []
    else
      var i := Item(key, recs[0]);
      [Settled(i, fate, DecodeDataSet(l.kind, l.fields, recs[0].payload, DeferredCtx(i), flowsOnly))]
      + DecodeAll(key, recs[1..], fate, l, flowsOnly)
  }

  function LayoutAfter(before: Option<Layout>, defs: seq<Layout>): Option<Layout> {
    if defs == [] then before else Some(defs[|defs| - 1])
  }

  /** The reference machine: adopt the last layout defined; with one, decode what arrives and then what waited. */
  function KeyStep(key: TemplateKey, s: KeyState, a: KeyAct): KeyOutcome {
    match a
    case GiveUp =>
      KeyOutcome(KeyState(s.layout, []), FlushRecords(key, s.waiting, FlushVersion(s.waiting)))
    case Bring(defs, records, flowsOnly) =>
      var layout := LayoutAfter(s.layout, defs);
      if layout.None? then KeyOutcome(KeyState(None, s.waiting + records), [])
      else
        KeyOutcome(KeyState(layout, []),
          DecodeAll(key, records, Decoded, layout.value, flowsOnly)
          + DecodeAll(key, s.waiting, Retried, layout.value, flowsOnly))
  }

  function KeyRun(key: TemplateKey, s: KeyState, acts: seq<KeyAct>): KeyOutcome
    decreases |acts|
  {
    if acts == [] then KeyOutcome(s, [])
    else
      var one := KeyStep(key, s, acts[0]);
      var more := KeyRun(key, one.state, acts[1..]);
      KeyOutcome(more.state, one.events + more.events)
  }

  // The view of the real cache.

  function View(c: CacheState, key: TemplateKey): KeyState {
    KeyState(LayoutOf(c.entries, key), WaitingAt(c.pending, key))
  }

  predicate Concerns(e: Event, key: TemplateKey) {
    e.Settled? && e.item.key == key
  }

  function EventsFor(events: seq<Event>, key: TemplateKey): seq<Event> {
    if events == [] then []
    else (if Concerns(events[0], key) then [events[0]] else []) + EventsFor(events[1..], key)
  }

  function DefsFor(defs: seq<TemplateDef>, exporter: string, domain: u32, key: TemplateKey): seq<Layout> {
    if defs == [] then []
    else
      (if TemplateKey(exporter, domain, defs[0].id) == key then [Layout(defs[0].kind, defs[0].fields)] else [])
      + DefsFor(defs[1..], exporter, domain, key)
  }

  function RecordsFor(items: seq<Item>, key: TemplateKey): seq<PendingRecord> {
    if items == [] then []
    else (if items[0].key == key then [items[0].rec] else []) + RecordsFor(items[1..], key)
  }

  function ActOf(ext: Externals, s: Step, key: TemplateKey): KeyAct {
    match s
    case Flush => GiveUp
    case Rehydrate => Bring([], [], false)
    case Datagram(i) =>
      var fo := i.opts.mode.DropsOptions();
      if InputFrame(i).None? then Bring([], [], fo)
      else
        var f := InputFrame(i).value;
        Bring(DefsFor(DefsOf(ext, f.version, f.sets), f.exporter, f.domain, key),
          RecordsFor(ItemsOf(f, f.sets), key), fo)
  }

  function ActsOf(ext: Externals, steps: seq<Step>, key: TemplateKey): seq<KeyAct> {
    if steps == [] then [] else [ActOf(ext, steps[0], key)] + ActsOf(ext, steps[1..], key)
  }

  // Reaching neither cap.

  function DefKeys(exporter: string, domain: u32, defs: seq<TemplateDef>): set<TemplateKey> {
    set d | d in defs :: TemplateKey(exporter, domain, d.id)
  }

  predicate NoneRefused(events: seq<Event>) {
    forall e :: e in events ==> !(e.Settled? && e.fate.Refused?)
  }

  /** The step evicts no entry and refuses no Data Set. */
  ghost predicate FitsCaps(ext: Externals, c: CacheState, s: Step) {
    s.Datagram? && InputFrame(s.input).Some? ==>
      var f := InputFrame(s.input).value;
      && |c.entries.Keys + DefKeys(f.exporter, f.domain, DefsOf(ext, f.version, f.sets))| <= c.capEntries
      && NoneRefused(DoStep(ext, c, s).events)
  }

  ghost predicate RunFitsCaps(ext: Externals, c: CacheState, steps: seq<Step>)
    decreases |steps|
  {
    steps == [] || (FitsCaps(ext, c, steps[0]) && RunFitsCaps(ext, DoStep(ext, c, steps[0]).cache, steps[1..]))
  }

  // The refinement.

  lemma {:induction false} EventsForConcat(a: seq<Event>, b: seq<Event>, key: TemplateKey)
    ensures EventsFor(a + b, key) == EventsFor(a, key) + EventsFor(b, key)
  {
    if a == [] {
      assert a + b == b;
    } else {
      assert (a + b)[1..] == a[1..] + b;
      EventsForConcat(a[1..], b, key);
    }
  }

  lemma EventsForOne(e: Event, key: TemplateKey)
    ensures EventsFor([e], key) == if Concerns(e, key) then [e] else []
    ensures EventsFor([], key) == []
  {
    assert [e][1..] == [];
  }

  /** Without overflow, an upsert inserts and evicts nothing. */
  lemma UpsertFits(c: CacheState, key: TemplateKey, entry: TemplateEntry)
    requires Valid(c) && |c.entries.Keys + {key}| <= c.capEntries
    ensures Upsert(c, key, entry).entries == c.entries[key := Inherit(c.entries, key, entry)]
  {
    var m := c.entries[key := Inherit(c.entries, key, entry)];
    assert m.Keys == c.entries.Keys + {key};
    assert |m| == |m.Keys|;
    SmallMod(|m|);
    hide Inherit, TotalBytes;
  }

  lemma UpsertView(c: CacheState, k: TemplateKey, e: TemplateEntry, key: TemplateKey)
    requires Valid(c) && |c.entries.Keys + {k}| <= c.capEntries
    ensures Valid(Upsert(c, k, e))
    ensures Upsert(c, k, e).entries.Keys == c.entries.Keys + {k} && Upsert(c, k, e).capEntries == c.capEntries
    ensures LayoutOf(Upsert(c, k, e).entries, key)
         == if k == key then Some(Layout(e.kind, e.fields)) else LayoutOf(c.entries, key)
  {
    UpsertFits(c, k, e);
    UpsertKeepsValid(c, k, e);
    PutView(c.entries, k, Inherit(c.entries, k, e), key);
    hide Valid, Evict, LayoutOf;
  }

  lemma PutView(m: Entries, k: TemplateKey, e: TemplateEntry, key: TemplateKey)
    ensures m[k := e].Keys == m.Keys + {k}
    ensures LayoutOf(m[k := e], key) == if k == key then Some(Layout(e.kind, e.fields)) else LayoutOf(m, key)
  {
  }

  /** Room for a whole is room for its first part. */
  lemma RoomFor<T>(held: set<T>, first: T, rest: set<T>, cap: int)
    requires |held + ({first} + rest)| <= cap
    ensures held + ({first} + rest) == held + {first} + rest && |held + {first}| <= cap
  {
    assert held + ({first} + rest) == held + {first} + rest;
    SubsetSize(held + {first}, held + {first} + rest);
  }

  lemma DefKeysCons(exporter: string, domain: u32, defs: seq<TemplateDef>)
    requires defs != []
    ensures DefKeys(exporter, domain, defs)
         == {TemplateKey(exporter, domain, defs[0].id)} + DefKeys(exporter, domain, defs[1..])
  {
    assert defs == [defs[0]] + defs[1..];
  }

  lemma {:induction false} LearnView(
    c: CacheState, exporter: string, domain: u32, defs: seq<TemplateDef>, now: i64, key: TemplateKey)
    requires Valid(c) && |c.entries.Keys + DefKeys(exporter, domain, defs)| <= c.capEntries
    ensures var r := Learn(c, exporter, domain, defs, now);
      && r.entries.Keys == c.entries.Keys + DefKeys(exporter, domain, defs)
      && LayoutOf(r.entries, key) == LayoutAfter(LayoutOf(c.entries, key), DefsFor(defs, exporter, domain, key))
    decreases |defs|
  {
    if defs != [] {
      hide Valid, Upsert, LayoutOf, DefKeys, LayoutAfter;
      var k, e := TemplateKey(exporter, domain, defs[0].id), EntryOf(defs[0], now);
      var rest := DefKeys(exporter, domain, defs[1..]);
      DefKeysCons(exporter, domain, defs);
      RoomFor(c.entries.Keys, k, rest, c.capEntries);
      UpsertView(c, k, e, key);
      LearnView(Upsert(c, k, e), exporter, domain, defs[1..], now, key);
      LayoutAfterCons(LayoutOf(c.entries, key), Layout(e.kind, e.fields), DefsFor(defs[1..], exporter, domain, key));
    }
  }

  lemma LayoutAfterCons(l: Option<Layout>, d: Layout, ds: seq<Layout>)
    ensures LayoutAfter(l, [d] + ds) == LayoutAfter(Some(d), ds)
    ensures LayoutAfter(l, [] + ds) == LayoutAfter(l, ds)
  {
    assert [] + ds == ds;
  }

  lemma SubsetSize<T>(a: set<T>, b: set<T>)
    requires a <= b
    ensures |a| <= |b|
  {
    assert b == a + (b - a);
    assert |b| == |a| + |b - a|;
  }

  /** A key before and after some records arrived for it. */
  ghost predicate Arrived(
    key: TemplateKey, s: KeyState, recs: seq<PendingRecord>, fo: bool, t: KeyState, events: seq<Event>)
  {
    if s.layout.None? then t == KeyState(None, s.waiting + recs) && events == []
    else t == s && events == DecodeAll(key, recs, Decoded, s.layout.value, fo)
  }

  /** A key before and after its waiting records were tried again, if they were. */
  ghost predicate RetriedIf(key: TemplateKey, tried: bool, s: KeyState, fo: bool, t: KeyState, events: seq<Event>) {
    if tried && s.layout.Some?
    then t == KeyState(s.layout, []) && events == DecodeAll(key, s.waiting, Retried, s.layout.value, fo)
    else t == s && events == []
  }

  lemma ArrivedTwice(
    key: TemplateKey, s: KeyState, a: seq<PendingRecord>, fo: bool, t: KeyState, d: seq<Event>,
    b: seq<PendingRecord>, u: KeyState, e: seq<Event>)
    requires Arrived(key, s, a, fo, t, d) && Arrived(key, t, b, fo, u, e)
    ensures Arrived(key, s, a + b, fo, u, d + e)
  {
    assert s.waiting + a + b == s.waiting + (a + b);
    if s.layout.Some? {
      DecodeAllConcat(key, a, b, Decoded, s.layout.value, fo);
    }
    hide DecodeAll;
  }

  lemma RefusalShows(c: CacheState, f: Frame, s: WireSet, now: i64, fo: bool)
    ensures s.id >= 256 && KeyFor(f, s.id) !in c.entries && !CanPush(c, RecordFor(f, s.body)) ==>
      !NoneRefused(Arrive(c, f, s, now, fo).events)
  {
    var o := Arrive(c, f, s, now, fo);
    assert o.events != [] ==> o.events[0] in o.events;
    hide CanPush, DecodeDataSet;
  }

  lemma ArriveView(c: CacheState, f: Frame, s: WireSet, now: i64, fo: bool, key: TemplateKey)
    requires f.version in {NetflowV9, Ipfix}
    requires NoneRefused(Arrive(c, f, s, now, fo).events)
    ensures var o := Arrive(c, f, s, now, fo);
      Arrived(key, View(c, key), RecordsFor(ItemOf(f, s), key), fo, View(o.cache, key), EventsFor(o.events, key))
  {
    var k, rec := KeyFor(f, s.id), RecordFor(f, s.body);
    if s.id < 256 {
      NothingArrives(View(c, key), fo, key);
    } else {
      RecordsForOne(Item(k, rec), key);
      RefusalShows(c, f, s, now, fo);
      if k in c.entries {
        DeferredIsDirect(f, s);
        KnownArrives(c, k, rec, now, fo, key);
      } else {
        UnknownArrives(c, k, rec, fo, key);
      }
    }
    hide Arrived, View, RecordsFor, EventsFor, KeyFor, RecordFor, DeferredCtx, DirectCtx, DecodeDataSet, CanPush, Use,
      Push, MissingRow;
  }

  lemma NothingArrives(s: KeyState, fo: bool, key: TemplateKey)
    ensures Arrived(key, s, RecordsFor([], key), fo, s, EventsFor([], key))
  {
    assert s.waiting + [] == s.waiting;
  }

  lemma KnownArrives(c: CacheState, k: TemplateKey, rec: PendingRecord, now: i64, fo: bool, key: TemplateKey)
    requires k in c.entries
    ensures var r, i := Use(c, k, now), Item(k, rec);
      Arrived(key, View(c, key), if k == key then [rec] else [], fo, View(r, key),
        EventsFor([Settled(i, Decoded, DecodeWith(r.entries[k], rec.payload, DeferredCtx(i), fo))], key))
  {
    hide DecodeDataSet, DeferredCtx;
    var r, i := Use(c, k, now), Item(k, rec);
    assert View(r, key) == View(c, key);
    EventsForOne(Settled(i, Decoded, DecodeWith(r.entries[k], rec.payload, DeferredCtx(i), fo)), key);
    OneDecoded(key, rec, Decoded, Layout(c.entries[k].kind, c.entries[k].fields), fo);
    NothingArrives(View(c, key), fo, key);
    hide EventsFor, DecodeAll;
  }

  lemma UnknownArrives(c: CacheState, k: TemplateKey, rec: PendingRecord, fo: bool, key: TemplateKey)
    requires k !in c.entries
    ensures Arrived(key, View(c, key), if k == key then [rec] else [], fo, View(Push(c, k, rec), key),
              EventsFor([], key))
  {
    NothingArrives(View(c, key), fo, key);
  }

  lemma RecordsForOne(i: Item, key: TemplateKey)
    ensures RecordsFor([i], key) == if i.key == key then [i.rec] else []
    ensures RecordsFor([], key) == []
  {
    assert [i][1..] == [];
  }

  lemma OneDecoded(key: TemplateKey, rec: PendingRecord, fate: Fate, l: Layout, fo: bool)
    ensures DecodeAll(key, [rec], fate, l, fo)
         == [Settled(Item(key, rec), fate,
               DecodeDataSet(l.kind, l.fields, rec.payload, DeferredCtx(Item(key, rec)), fo))]
    ensures DecodeAll(key, [], fate, l, fo) == []
  {
    assert [rec][1..] == [];
    hide DecodeDataSet, DeferredCtx;
  }

  lemma {:induction false} DecodeAllConcat(
    key: TemplateKey, a: seq<PendingRecord>, b: seq<PendingRecord>, fate: Fate, l: Layout, fo: bool)
    ensures DecodeAll(key, a + b, fate, l, fo) == DecodeAll(key, a, fate, l, fo) + DecodeAll(key, b, fate, l, fo)
  {
    hide DecodeDataSet, DeferredCtx;
    if a == [] {
      assert a + b == b;
    } else {
      assert (a + b)[1..] == a[1..] + b;
      DecodeAllConcat(key, a[1..], b, fate, l, fo);
    }
  }

  lemma {:induction false} RecordsForConcat(a: seq<Item>, b: seq<Item>, key: TemplateKey)
    ensures RecordsFor(a + b, key) == RecordsFor(a, key) + RecordsFor(b, key)
  {
    if a == [] {
      assert a + b == b;
    } else {
      assert (a + b)[1..] == a[1..] + b;
      RecordsForConcat(a[1..], b, key);
    }
  }

  lemma {:induction false} ArriveAllView(
    c: CacheState, f: Frame, sets: seq<WireSet>, now: i64, fo: bool, key: TemplateKey)
    requires f.version in {NetflowV9, Ipfix}
    requires NoneRefused(ArriveAll(c, f, sets, now, fo).events)
    ensures var o := ArriveAll(c, f, sets, now, fo);
      Arrived(key, View(c, key), RecordsFor(ItemsOf(f, sets), key), fo, View(o.cache, key), EventsFor(o.events, key))
    decreases |sets|
  {
    hide Arrive, ItemOf, View;
    if sets == [] {
      assert View(c, key).waiting + [] == View(c, key).waiting;
    } else {
      hide Arrived, RecordsFor, EventsFor;
      var one := Arrive(c, f, sets[0], now, fo);
      var more := ArriveAll(one.cache, f, sets[1..], now, fo);
      NoneRefusedSplits(one.events, more.events);
      ArriveView(c, f, sets[0], now, fo, key);
      ArriveAllView(one.cache, f, sets[1..], now, fo, key);
      EventsForConcat(one.events, more.events, key);
      RecordsForConcat(ItemOf(f, sets[0]), ItemsOf(f, sets[1..]), key);
      ArrivedTwice(key, View(c, key), RecordsFor(ItemOf(f, sets[0]), key), fo, View(one.cache, key),
        EventsFor(one.events, key), RecordsFor(ItemsOf(f, sets[1..]), key), View(more.cache, key),
        EventsFor(more.events, key));
    }
  }

  lemma NoneRefusedSplits(a: seq<Event>, b: seq<Event>)
    requires NoneRefused(a + b)
    ensures NoneRefused(a) && NoneRefused(b)
  {
    forall e | e in a || e in b ensures e in a + b {
    }
  }

  lemma {:induction false} SettleView(
    k: TemplateKey, recs: seq<PendingRecord>, e: TemplateEntry, fo: bool, key: TemplateKey)
    ensures EventsFor(Settle(k, recs, e, fo), key)
         == if k == key then DecodeAll(key, recs, Retried, Layout(e.kind, e.fields), fo) else []
  {
    hide DecodeDataSet, DeferredCtx;
    if recs != [] {
      SettleView(k, recs[1..], e, fo, key);
      var first := Settle(k, recs, e, fo)[0];
      assert Settle(k, recs, e, fo) == [first] + Settle(k, recs[1..], e, fo);
      EventsForConcat([first], Settle(k, recs[1..], e, fo), key);
      EventsForOne(first, key);
    }
  }

  lemma RetryKeyView(c: CacheState, k: TemplateKey, now: i64, fo: bool, key: TemplateKey)
    ensures var o := RetryKey(c, k, now, fo);
      RetriedIf(key, k == key, View(c, key), fo, View(o.cache, key), EventsFor(o.events, key))
  {
    hide Settle, PayloadBytes;
    if k in c.entries {
      var c' := Use(c, k, now);
      SettleView(k, WaitingAt(c'.pending, k), c'.entries[k], fo, key);
    }
  }

  lemma {:induction false} RetryView(c: CacheState, keys: seq<TemplateKey>, now: i64, fo: bool, key: TemplateKey)
    requires Increasing(keys)
    ensures var o := RetryKeys(c, keys, now, fo);
      RetriedIf(key, key in keys, View(c, key), fo, View(o.cache, key), EventsFor(o.events, key))
    decreases |keys|
  {
    hide RetryKey, KeyLess, View;
    if keys != [] {
      var one := RetryKey(c, keys[0], now, fo);
      var more := RetryKeys(one.cache, keys[1..], now, fo);
      RetryKeyView(c, keys[0], now, fo, key);
      RetryView(one.cache, keys[1..], now, fo, key);
      EventsForConcat(one.events, more.events, key);
      KeyTotal(keys[0], keys[0]);
      assert keys[0] !in keys[1..];
      hide EventsFor, DecodeAll;
    }
  }

  lemma ArriveThenRetry(
    key: TemplateKey, s: KeyState, recs: seq<PendingRecord>, fo: bool, t: KeyState, d: seq<Event>, tried: bool,
    u: KeyState, e: seq<Event>)
    requires Arrived(key, s, recs, fo, t, d) && RetriedIf(key, tried, t, fo, u, e)
    requires !tried ==> t.waiting == []
    ensures forall l, defs :: LayoutAfter(l, defs) == s.layout ==>
      KeyStep(key, KeyState(l, s.waiting), Bring(defs, recs, fo)) == KeyOutcome(u, d + e)
  {
    var l := if s.layout.Some? then s.layout.value else Layout(Data, []);
    OneDecoded(key, PendingRecord(None, None, Ipfix, None, []), Retried, l, fo);
    hide DecodeAll;
  }

  ghost function LearnedBy(ext: Externals, c: CacheState, i: Input): CacheState
    requires InputFrame(i).Some?
  {
    var f := InputFrame(i).value;
    Learn(c, f.exporter, f.domain, DefsOf(ext, f.version, f.sets), i.opts.now)
  }

  /** The two passes of a datagram with Sets, seen from one key. */
  lemma PassesView(ext: Externals, c: CacheState, i: Input, key: TemplateKey)
    requires Valid(c) && InputFrame(i).Some? && FitsCaps(ext, c, Datagram(i))
    ensures var o, a, learned := DecodeByVersion(ext, c, i), ActOf(ext, Datagram(i), key), LearnedBy(ext, c, i);
      && View(learned, key) == KeyState(LayoutAfter(View(c, key).layout, a.defs), View(c, key).waiting)
      && Arrived(key, View(learned, key), a.records, a.flowsOnly, View(o.cache, key), EventsFor(o.events, key))
  {
    hide Probe, DefsOf, ItemsOf, Valid, NoneRefused, Arrived, RetryKeys, LayoutAfter;
    var f, now, fo := InputFrame(i).value, i.opts.now, i.opts.mode.DropsOptions();
    var defs := DefsOf(ext, f.version, f.sets);
    var o1, o := DecodeByVersion(ext, c, i), DecodeDatagram(ext, c, i);
    ByVersion(ext, c, i);
    FrameBodiesSmall(i);
    hide InputFrame, DecodeByVersion;
    LearnLeavesPending(c, f.exporter, f.domain, defs, now);
    LearnView(c, f.exporter, f.domain, defs, now, key);
    hide Learn;
    NoneRefusedSplits(o1.events, o.events[|o1.events|..]) by {
      assert o.events == o1.events + o.events[|o1.events|..];
    }
    ArriveAllView(LearnedBy(ext, c, i), f, f.sets, now, fo, key);
    hide ArriveAll;
  }

  /** A datagram with Sets, seen from one key: both passes and the retry together are the machine's `Bring`. */
  lemma FrameView(ext: Externals, c: CacheState, i: Input, key: TemplateKey)
    requires Valid(c) && Quiet(c) && InputFrame(i).Some? && FitsCaps(ext, c, Datagram(i))
    ensures var o := DecodeDatagram(ext, c, i);
      KeyOutcome(View(o.cache, key), EventsFor(o.events, key))
      == KeyStep(key, View(c, key), ActOf(ext, Datagram(i), key))
  {
    hide Probe, Valid, KeyStep, Arrived, RetriedIf, RetryKeys, InputFrame, DecodeByVersion, LearnedBy, LayoutAfter,
      FitsCaps, DefsFor, RecordsFor, DefsOf, ItemsOf, EventsFor;
    var now, fo := i.opts.now, i.opts.mode.DropsOptions();
    var o1, o := DecodeByVersion(ext, c, i), DecodeDatagram(ext, c, i);
    var a, learned := ActOf(ext, Datagram(i), key), LearnedBy(ext, c, i);
    ByVersion(ext, c, i);
    PassesView(ext, c, i, key);
    var keys := SortedKeys(o1.cache.pending.Keys);
    SortedIncreasing(o1.cache.pending.Keys);
    var r := RetryKeys(o1.cache, keys, now, fo);
    RetryView(o1.cache, keys, now, fo, key);
    RetryOfNothing(o1.cache, now, fo);
    assert key in keys <==> key in o1.cache.pending.Keys;
    EventsForConcat(o1.events, r.events, key);
    assert o.cache == r.cache && o.events == o1.events + r.events;
    hide DecodeDatagram;
    ArriveThenRetry(key, View(learned, key), a.records, fo, View(o1.cache, key), EventsFor(o1.events, key),
      key in keys, View(r.cache, key), EventsFor(r.events, key));
  }

  lemma RetryOfNothing(c: CacheState, now: i64, fo: bool)
    ensures c.pending == map[] ==> RetryKeys(c, SortedKeys(c.pending.Keys), now, fo) == Outcome(c, [])
    ensures forall a: seq<Event> :: a + [] == a
  {
  }
}

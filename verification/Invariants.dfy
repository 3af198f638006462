/** What holds in every reachable state of a scan, and where every Data Set ends up. */
module Invariants {
  import opened Wire
  import opened Flow
  import opened KeyOrder
  import opened CacheSpec
  import opened Headers
  import opened Framing
  import opened Templates
  import opened Scan
  import opened Truth

  // Valid states stay valid, and quiet ones become quiet again.

  lemma {:induction false} LearnKeeps(
    c: CacheState, exporter: string, domain: u32, defs: seq<TemplateDef>, now: i64)
    requires Valid(c)
    ensures var r := Learn(c, exporter, domain, defs, now);
      Valid(r) && r == c.(entries := r.entries)
      && forall k :: k in r.entries && k !in c.entries ==> k.exporter == exporter && k.domain == domain
    decreases |defs|
  {
    if defs != [] {
      var key, e := TemplateKey(exporter, domain, defs[0].id), EntryOf(defs[0], now);
      UpsertKeepsValid(c, key, e);
      LearnKeeps(Upsert(c, key, e), exporter, domain, defs[1..], now);
      hide Valid, Evict, Inherit;
    }
  }

  lemma ArriveKeeps(c: CacheState, f: Frame, s: WireSet, now: i64, flowsOnly: bool)
    requires Valid(c) && |s.body| < TWO_16
    ensures var r := Arrive(c, f, s, now, flowsOnly).cache;
      && Valid(r) && r.entries.Keys == c.entries.Keys
      && r.capEntries == c.capEntries && r.capPendingBytes == c.capPendingBytes
      && forall k :: k in r.pending && k in c.entries ==> k in c.pending
  {
    var key, rec := KeyFor(f, s.id), RecordFor(f, s.body);
    UseKeepsValid(c, key, now);
    PushKeepsValid(c, key, rec);
    hide Valid, CanPush, DecodeWith, MissingRow, Touch;
  }

  lemma {:induction false} ArriveAllKeeps(c: CacheState, f: Frame, sets: seq<WireSet>, now: i64, flowsOnly: bool)
    requires Valid(c) && SmallBodies(sets)
    ensures var r := ArriveAll(c, f, sets, now, flowsOnly).cache;
      && Valid(r) && r.entries.Keys == c.entries.Keys
      && r.capEntries == c.capEntries && r.capPendingBytes == c.capPendingBytes
      && forall k :: k in r.pending && k in c.entries ==> k in c.pending
    decreases |sets|
  {
    hide Arrive, Valid;
    if sets != [] {
      assert sets[0] in sets;
      ArriveKeeps(c, f, sets[0], now, flowsOnly);
      ArriveAllKeeps(Arrive(c, f, sets[0], now, flowsOnly).cache, f, sets[1..], now, flowsOnly);
    }
  }

  lemma {:induction false} RetryKeeps(c: CacheState, keys: seq<TemplateKey>, now: i64, flowsOnly: bool)
    requires Valid(c)
    ensures var r := RetryKeys(c, keys, now, flowsOnly).cache;
      && Valid(r) && r.entries.Keys == c.entries.Keys
      && r.capEntries == c.capEntries && r.capPendingBytes == c.capPendingBytes
      && r.pending.Keys <= c.pending.Keys
      && forall k :: k in keys && k in c.entries ==> k !in r.pending
    decreases |keys|
  {
    if keys != [] {
      UseKeepsValid(c, keys[0], now);
      TakeKeepsValid(Use(c, keys[0], now), keys[0]);
      RetryKeeps(RetryKey(c, keys[0], now, flowsOnly).cache, keys[1..], now, flowsOnly);
      hide Valid, Settle, Touch, PayloadBytes;
    }
  }

  /** Retrying every waiting key leaves no key both known and waiting. */
  lemma RetryQuiets(c: CacheState, now: i64, flowsOnly: bool)
    requires Valid(c)
    ensures Valid(Retry(c, now, flowsOnly).cache) && Quiet(Retry(c, now, flowsOnly).cache)
  {
    RetryKeeps(c, SortedKeys(c.pending.Keys), now, flowsOnly);
    hide RetryKeys, Valid;
  }

  lemma DecodeByVersionKeeps(ext: Externals, c: CacheState, i: Input)
    requires Valid(c)
    ensures var o := DecodeByVersion(ext, c, i);
      Valid(o.cache) && if InputFrame(i).None? then o.cache == c else Probe(i.data) in {Some(NetflowV9), Some(Ipfix)}
  {
    ByVersion(ext, c, i);
    hide Valid, Probe, DecodeByVersion, InputFrame;
    if InputFrame(i).Some? {
      var f := InputFrame(i).value;
      FrameBodiesSmall(i);
      LearnKeeps(c, f.exporter, f.domain, DefsOf(ext, f.version, f.sets), i.opts.now);
      ArriveAllKeeps(Learn(c, f.exporter, f.domain, DefsOf(ext, f.version, f.sets), i.opts.now), f, f.sets, i.opts.now,
        i.opts.mode.DropsOptions());
      hide Learn, ArriveAll, DefsOf;
    }
  }

  /** Every step of a scan keeps both invariants, whatever the datagram, its format and the formats accepted. */
  lemma StepKeeps(ext: Externals, c: CacheState, s: Step)
    requires Valid(c) && Quiet(c)
    ensures Valid(DoStep(ext, c, s).cache) && Quiet(DoStep(ext, c, s).cache)
  {
    match s
    case Datagram(i) =>
      var o := DecodeByVersion(ext, c, i);
      DecodeByVersionKeeps(ext, c, i);
      hide Valid, DecodeByVersion, Probe, InputFrame;
      RetryQuiets(o.cache, i.opts.now, i.opts.mode.DropsOptions());
      hide Retry;
    case Rehydrate =>
      RehydrateIdentity(c);
    case Flush =>
      DrainKeepsValid(c);
      hide FlushPairs;
  }

  /** Quiescence and exact byte accounting in every reachable state. */
  lemma {:induction false} RunKeeps(ext: Externals, c: CacheState, steps: seq<Step>)
    requires Valid(c) && Quiet(c)
    ensures Valid(Run(ext, c, steps).cache) && Quiet(Run(ext, c, steps).cache)
    decreases |steps|
  {
    hide Valid, Quiet, DoStep;
    if steps != [] {
      StepKeeps(ext, c, steps[0]);
      RunKeeps(ext, DoStep(ext, c, steps[0]).cache, steps[1..]);
    }
  }

  /** Only v9 and IPFIX Data Sets are buffered. */
  ghost predicate VersionsKnown(p: Pending) {
    forall k :: k in p ==> TwoVersions(p[k])
  }

  predicate TwoVersions(recs: seq<PendingRecord>) {
    forall r :: r in recs ==> r.version in {NetflowV9, Ipfix}
  }

  lemma {:induction false} ArriveAllKeepsVersions(
    c: CacheState, f: Frame, sets: seq<WireSet>, now: i64, flowsOnly: bool)
    requires VersionsKnown(c.pending) && f.version in {NetflowV9, Ipfix}
    ensures VersionsKnown(ArriveAll(c, f, sets, now, flowsOnly).cache.pending)
    decreases |sets|
  {
    hide DecodeWith, CanPush, MissingRow, Touch;
    if sets != [] {
      var one := Arrive(c, f, sets[0], now, flowsOnly).cache;
      assert VersionsKnown(one.pending);
      ArriveAllKeepsVersions(one, f, sets[1..], now, flowsOnly);
      hide Arrive, VersionsKnown;
    }
  }

  lemma {:induction false} RetryKeepsVersions(c: CacheState, keys: seq<TemplateKey>, now: i64, flowsOnly: bool)
    requires VersionsKnown(c.pending)
    ensures VersionsKnown(RetryKeys(c, keys, now, flowsOnly).cache.pending)
    decreases |keys|
  {
    hide Settle, Touch, PayloadBytes, TwoVersions;
    if keys != [] {
      var one := RetryKey(c, keys[0], now, flowsOnly).cache;
      assert VersionsKnown(one.pending);
      RetryKeepsVersions(one, keys[1..], now, flowsOnly);
      hide RetryKey, VersionsKnown;
    }
  }

  lemma StepKeepsVersions(ext: Externals, c: CacheState, s: Step)
    requires VersionsKnown(c.pending)
    ensures VersionsKnown(DoStep(ext, c, s).cache.pending)
  {
    match s
    case Datagram(i) =>
      ByVersion(ext, c, i);
      var now, fo := i.opts.now, i.opts.mode.DropsOptions();
      var o := DecodeByVersion(ext, c, i);
      hide DecodeByVersion, Probe, InputFrame, VersionsKnown, RetryKeys, ArriveAll, Learn, DefsOf;
      if InputFrame(i).Some? {
        var f := InputFrame(i).value;
        FrameBodiesSmall(i);
        LearnLeavesPending(c, f.exporter, f.domain, DefsOf(ext, f.version, f.sets), now);
        ArriveAllKeepsVersions(Learn(c, f.exporter, f.domain, DefsOf(ext, f.version, f.sets), now), f, f.sets, now, fo);
      }
      RetryKeepsVersions(o.cache, SortedKeys(o.cache.pending.Keys), now, fo);
    case Rehydrate =>
      CollectPairs(c.pending);
      hide Collect, PairUp, SortedKeys, TotalBytes;
    case Flush =>
      hide FlushPairs;
  }

  lemma {:induction false} RunKeepsVersions(ext: Externals, c: CacheState, steps: seq<Step>)
    requires VersionsKnown(c.pending)
    ensures VersionsKnown(Run(ext, c, steps).cache.pending)
    decreases |steps|
  {
    hide VersionsKnown, DoStep;
    if steps != [] {
      StepKeepsVersions(ext, c, steps[0]);
      RunKeepsVersions(ext, DoStep(ext, c, steps[0]).cache, steps[1..]);
    }
  }

  lemma EveryScanIsSound(ext: Externals, steps: seq<Step>)
    ensures var c := Run(ext, EmptyCache(), steps).cache;
      && c.pendingBytes == TotalBytes(c.pending) <= c.capPendingBytes
      && |c.entries| <= c.capEntries
      && VersionsKnown(c.pending)
      && forall k :: k in c.pending ==> c.pending[k] != [] && k !in c.entries
  {
    EmptyIsValid();
    RunKeeps(ext, EmptyCache(), steps);
    RunKeepsVersions(ext, EmptyCache(), steps);
    hide Run, TotalBytes;
  }

  // Conservation.

  function SettledItems(events: seq<Event>): seq<Item> {
    if events == [] then []
    else (if events[0].Settled? then [events[0].item] else []) + SettledItems(events[1..])
  }

  lemma {:induction false} SettledItemsConcat(a: seq<Event>, b: seq<Event>)
    ensures SettledItems(a + b) == SettledItems(a) + SettledItems(b)
  {
    if a == [] {
      assert a + b == b;
    } else {
      assert (a + b)[0] == a[0] && (a + b)[1..] == a[1..] + b;
      SettledItemsConcat(a[1..], b);
      var head := if a[0].Settled? then [a[0].item] else [];
      assert head + (SettledItems(a[1..]) + SettledItems(b)) == head + SettledItems(a[1..]) + SettledItems(b);
    }
  }

  /** How many copies of an item are buffered. */
  function Waiting(p: Pending, i: Item): nat {
    multiset(WaitingAt(p, i.key))[i.rec]
  }

  /** How many copies of an item a list of events settles. */
  function SettledCount(events: seq<Event>, i: Item): nat {
    multiset(SettledItems(events))[i]
  }

  lemma SettledCountConcat(a: seq<Event>, b: seq<Event>, i: Item)
    ensures SettledCount(a + b, i) == SettledCount(a, i) + SettledCount(b, i)
  {
    SettledItemsConcat(a, b);
  }

  lemma SettledCountCons(e: Event, es: seq<Event>, i: Item)
    ensures SettledCount([e] + es, i) == (if e.Settled? && e.item == i then 1 else 0) + SettledCount(es, i)
    ensures SettledCount([], i) == 0 && [e] + [] == [e]
  {
    SettledCountConcat([e], es, i);
    assert SettledItems([e][1..]) == [];
    assert SettledItems([e]) == if e.Settled? then [e.item] else [];
  }

  lemma ArriveConserves(c: CacheState, f: Frame, s: WireSet, now: i64, flowsOnly: bool, i: Item)
    ensures var o := Arrive(c, f, s, now, flowsOnly);
      multiset(ItemOf(f, s))[i] + Waiting(c.pending, i) == SettledCount(o.events, i) + Waiting(o.cache.pending, i)
  {
    hide CanPush, DecodeWith, MissingRow, Touch, DirectCtx, SettledCount, KeyFor, RecordFor;
    var key, rec := KeyFor(f, s.id), RecordFor(f, s.body);
    var o := Arrive(c, f, s, now, flowsOnly);
    SettledCountCons(if o.events == [] then Direct([]) else o.events[0], [], i);
    if s.id >= 256 && key !in c.entries && CanPush(c, rec) {
      var before := WaitingAt(c.pending, key);
      assert multiset(before + [rec]) == multiset(before) + multiset{rec};
      assert o.cache.pending == c.pending[key := before + [rec]];
    } else {
      assert o.cache.pending == c.pending;
    }
  }

  lemma {:induction false} ArriveAllConserves(
    c: CacheState, f: Frame, sets: seq<WireSet>, now: i64, flowsOnly: bool, i: Item)
    ensures var o := ArriveAll(c, f, sets, now, flowsOnly);
      multiset(ItemsOf(f, sets))[i] + Waiting(c.pending, i)
         == SettledCount(o.events, i) + Waiting(o.cache.pending, i)
    decreases |sets|
  {
    hide Arrive, Waiting, ItemOf;
    if sets != [] {
      var one := Arrive(c, f, sets[0], now, flowsOnly);
      var more := ArriveAll(one.cache, f, sets[1..], now, flowsOnly);
      ArriveConserves(c, f, sets[0], now, flowsOnly, i);
      ArriveAllConserves(one.cache, f, sets[1..], now, flowsOnly, i);
      SettledCountConcat(one.events, more.events, i);
      hide SettledCount;
    }
  }

  lemma CountCons(recs: seq<PendingRecord>, r: PendingRecord)
    requires recs != []
    ensures multiset(recs)[r] == (if recs[0] == r then 1 else 0) + multiset(recs[1..])[r]
  {
    assert recs == [recs[0]] + recs[1..];
  }

  lemma {:induction false} SettleItems(key: TemplateKey, recs: seq<PendingRecord>, e: TemplateEntry, fo: bool, i: Item)
    ensures SettledCount(Settle(key, recs, e, fo), i) == if i.key == key then multiset(recs)[i.rec] else 0
  {
    if recs != [] {
      hide DecodeWith, DeferredCtx, SettledCount;
      SettleItems(key, recs[1..], e, fo, i);
      CountCons(recs, i.rec);
      var first := Item(key, recs[0]);
      SettledCountCons(Settled(first, Retried, DecodeWith(e, recs[0].payload, DeferredCtx(first), fo)),
        Settle(key, recs[1..], e, fo), i);
    } else {
      SettledCountCons(Direct([]), [], i);
    }
  }

  lemma RetryKeyConserves(c: CacheState, key: TemplateKey, now: i64, fo: bool, i: Item)
    ensures var o := RetryKey(c, key, now, fo);
      Waiting(c.pending, i) == SettledCount(o.events, i) + Waiting(o.cache.pending, i)
  {
    if key in c.entries {
      var c' := Use(c, key, now);
      SettleItems(key, WaitingAt(c'.pending, key), c'.entries[key], fo, i);
    }
    hide Settle, Touch, PayloadBytes;
  }

  lemma {:induction false} RetryConserves(c: CacheState, keys: seq<TemplateKey>, now: i64, fo: bool, i: Item)
    ensures var o := RetryKeys(c, keys, now, fo);
      Waiting(c.pending, i) == SettledCount(o.events, i) + Waiting(o.cache.pending, i)
    decreases |keys|
  {
    hide RetryKey, Waiting;
    if keys != [] {
      var one := RetryKey(c, keys[0], now, fo);
      RetryKeyConserves(c, keys[0], now, fo, i);
      RetryConserves(one.cache, keys[1..], now, fo, i);
      SettledCountConcat(one.events, RetryKeys(one.cache, keys[1..], now, fo).events, i);
      hide SettledCount;
    }
  }

  lemma {:induction false} FlushRecordsSettles(
    key: TemplateKey, recs: seq<PendingRecord>, v: Version, i: Item)
    ensures SettledCount(FlushRecords(key, recs, v), i) == if i.key == key then multiset(recs)[i.rec] else 0
  {
    hide MissingRow, SettledCount;
    if recs != [] {
      FlushRecordsSettles(key, recs[1..], v, i);
      CountCons(recs, i.rec);
      var first := Settled(Item(key, recs[0]), Flushed, [MissingRow(key, v, recs[0])]);
      SettledCountCons(first, FlushRecords(key, recs[1..], v), i);
      assert FlushRecords(key, recs, v) == [first] + FlushRecords(key, recs[1..], v);
    } else {
      SettledCountCons(Direct([]), [], i);
    }
  }

  lemma {:induction false} FlushPairsSettles(p: Pending, ks: seq<TemplateKey>, i: Item)
    requires Increasing(ks) && forall k :: k in ks ==> k in p
    ensures var es := FlushPairs(PairUp(p, ks));
      SettledCount(es, i) == (if i.key in ks then Waiting(p, i) else 0)
  {
    if ks != [] {
      var ps := PairUp(p, ks);
      var first := FlushRecords(ks[0], p[ks[0]], FlushVersion(p[ks[0]]));
      assert ps[1..] == PairUp(p, ks[1..]);
      FlushRecordsSettles(ks[0], p[ks[0]], FlushVersion(p[ks[0]]), i);
      FlushPairsSettles(p, ks[1..], i);
      SettledCountConcat(first, FlushPairs(PairUp(p, ks[1..])), i);
      KeyTotal(ks[0], ks[0]);
      assert ks[0] !in ks[1..];
      hide FlushRecords, KeyLess, SettledCount;
    }
  }

  /** The Data Sets a step brings in: a function of the datagram alone. */
  function Arrivals(s: Step): seq<Item> {
    if !s.Datagram? || InputFrame(s.input).None? then []
    else ItemsOf(InputFrame(s.input).value, InputFrame(s.input).value.sets)
  }

  lemma DatagramConserves(ext: Externals, c: CacheState, input: Input, i: Item)
    ensures var o := DecodeDatagram(ext, c, input);
      multiset(Arrivals(Datagram(input)))[i] + Waiting(c.pending, i)
         == SettledCount(o.events, i) + Waiting(o.cache.pending, i)
  {
    var o := DecodeByVersion(ext, c, input);
    FirstPassConserves(ext, c, input, i);
    hide DecodeByVersion, Waiting, Arrivals, Probe;
    var fo := input.opts.mode.DropsOptions();
    RetryConserves(o.cache, SortedKeys(o.cache.pending.Keys), input.opts.now, fo, i);
    SettledCountConcat(o.events, Retry(o.cache, input.opts.now, fo).events, i);
    hide SettledCount, RetryKeys;
  }

  lemma FirstPassConserves(ext: Externals, c: CacheState, input: Input, i: Item)
    ensures var o := DecodeByVersion(ext, c, input);
      multiset(Arrivals(Datagram(input)))[i] + Waiting(c.pending, i)
         == SettledCount(o.events, i) + Waiting(o.cache.pending, i)
  {
    ByVersion(ext, c, input);
    hide Probe, DecodeByVersion, InputFrame, Waiting;
    if InputFrame(input).Some? {
      var f := InputFrame(input).value;
      FrameBodiesSmall(input);
      LearnLeavesPending(c, f.exporter, f.domain, DefsOf(ext, f.version, f.sets), input.opts.now);
      ArriveAllConserves(Learn(c, f.exporter, f.domain, DefsOf(ext, f.version, f.sets), input.opts.now), f, f.sets,
        input.opts.now, input.opts.mode.DropsOptions(), i);
      hide Learn, ArriveAll, DefsOf, ItemsOf, SettledItems;
    } else {
      var o := DecodeByVersion(ext, c, input);
      SettledCountCons(o.events[0], [], i);
      assert o.events == [o.events[0]];
    }
  }

  lemma {:induction false} LearnLeavesPending(
    c: CacheState, exporter: string, domain: u32, defs: seq<TemplateDef>, now: i64)
    ensures Learn(c, exporter, domain, defs, now).pending == c.pending
    decreases |defs|
  {
    if defs != [] {
      LearnLeavesPending(Upsert(c, TemplateKey(exporter, domain, defs[0].id), EntryOf(defs[0], now)), exporter, domain,
        defs[1..], now);
      hide Evict, Inherit;
    }
  }

  lemma StepConserves(ext: Externals, c: CacheState, s: Step, i: Item)
    ensures var o := DoStep(ext, c, s);
      multiset(Arrivals(s))[i] + Waiting(c.pending, i)
         == SettledCount(o.events, i) + Waiting(o.cache.pending, i)
  {
    match s
    case Datagram(input) =>
      DatagramConserves(ext, c, input, i);
      hide DecodeDatagram, Waiting, Arrivals;
    case Rehydrate =>
      CollectPairs(c.pending);
    case Flush =>
      SortedIncreasing(c.pending.Keys);
      FlushPairsSettles(c.pending, SortedKeys(c.pending.Keys), i);
      assert i.key in SortedKeys(c.pending.Keys) <==> i.key in c.pending.Keys;
      hide FlushPairs;
  }

  function AllArrivals(steps: seq<Step>): seq<Item> {
    if steps == [] then [] else Arrivals(steps[0]) + AllArrivals(steps[1..])
  }

  lemma {:induction false} RunCounts(ext: Externals, c: CacheState, steps: seq<Step>, i: Item)
    ensures var o := Run(ext, c, steps);
      multiset(AllArrivals(steps))[i] + Waiting(c.pending, i)
         == SettledCount(o.events, i) + Waiting(o.cache.pending, i)
    decreases |steps|
  {
    hide DoStep, Waiting, Arrivals;
    if steps != [] {
      var one := DoStep(ext, c, steps[0]);
      StepConserves(ext, c, steps[0], i);
      RunCounts(ext, one.cache, steps[1..], i);
      SettledCountConcat(one.events, Run(ext, one.cache, steps[1..]).events, i);
      hide SettledCount;
    }
  }

  /**
   * Conservation over every run, from any cache, with any caps, through rehydrations and flushes: each Data Set
   * that arrives is settled by exactly one event or is still buffered; and each event says what it must. The rows of
   * a decoded or retried Data Set are its payload decoded against the last layout defined for its key; a refused one
   * has a key that is not cached and does not fit the buffer; a flushed one was waiting, and is labelled by the first
   * record that waited with it.
   */
  lemma RunConserves(ext: Externals, c: CacheState, steps: seq<Step>, i: Item)
    ensures var o := Run(ext, c, steps);
      multiset(AllArrivals(steps))[i] + Waiting(c.pending, i)
         == SettledCount(o.events, i) + Waiting(o.cache.pending, i)
    ensures RunTruthful(ext, LayoutsOf(c.entries), c, steps)
  {
    RunCounts(ext, c, steps, i);
    RunIsTruthful(ext, LayoutsOf(c.entries), c, steps);
    hide Run, RunTruthful, SettledCount, Waiting, AllArrivals;
  }

  /** A scan that ends with a flush has settled every Data Set it saw, each exactly as often as it arrived. */
  lemma FlushedScanSettlesEverything(ext: Externals, steps: seq<Step>)
    ensures var o := Run(ext, EmptyCache(), steps + [Flush]);
      multiset(SettledItems(o.events)) == multiset(AllArrivals(steps + [Flush]))
  {
    var o := Run(ext, EmptyCache(), steps + [Flush]);
    FlushedRunIsDrained(ext, EmptyCache(), steps);
    forall i: Item ensures multiset(SettledItems(o.events))[i] == multiset(AllArrivals(steps + [Flush]))[i] {
      RunCounts(ext, EmptyCache(), steps + [Flush], i);
      hide Run, AllArrivals, SettledItems;
    }
    hide Run, AllArrivals, SettledItems;
  }

  lemma {:induction false} FlushedRunIsDrained(ext: Externals, c: CacheState, steps: seq<Step>)
    ensures Run(ext, c, steps + [Flush]).cache.pending == map[]
    decreases |steps|
  {
    if steps == [] {
      assert [] + [Flush] == [Flush];
      assert [Flush][1..] == [];
      hide FlushPairs;
    } else {
      assert (steps + [Flush])[1..] == steps[1..] + [Flush];
      FlushedRunIsDrained(ext, DoStep(ext, c, steps[0]).cache, steps[1..]);
      hide DoStep;
    }
  }

  // The flush label.

  lemma {:induction false} FlushRecordsAt(key: TemplateKey, recs: seq<PendingRecord>, v: Version)
    ensures |FlushRecords(key, recs, v)| == |recs|
    ensures forall i :: 0 <= i < |recs| ==>
      FlushRecords(key, recs, v)[i] == Settled(Item(key, recs[i]), Flushed, [MissingRow(key, v, recs[i])])
  {
    if recs != [] {
      FlushRecordsAt(key, recs[1..], v);
      hide MissingRow;
    }
  }

  /** Flush events that give every row its own record's version. */
  predicate LabelsRight(key: TemplateKey, recs: seq<PendingRecord>, es: seq<Event>) {
    |es| == |recs| &&
    forall i :: 0 <= i < |recs| ==>
      |es[i].rows| == 1 && ReportsMissing(es[i].rows[0], key, recs[i].version, recs[i])
  }

  predicate OneVersion(recs: seq<PendingRecord>) {
    forall i :: 0 <= i < |recs| ==> recs[i].version == recs[0].version
  }

  /**
   * A flush labels a key's rows with the version of its first record. Each row carries its own record's version
   * exactly when the key's records are all of one version; v9 and IPFIX records can share a key.
   */
  lemma FlushLabelsRightIff(key: TemplateKey, recs: seq<PendingRecord>)
    requires TwoVersions(recs)
    ensures LabelsRight(key, recs, FlushRecords(key, recs, FlushVersion(recs))) <==> OneVersion(recs)
  {
    var v := FlushVersion(recs);
    FlushRecordsAt(key, recs, v);
    forall i | 0 <= i < |recs|
      ensures ReportsMissing(MissingRow(key, v, recs[i]), key, recs[i].version, recs[i]) <==> v == recs[i].version
    {
      MissingRowReports(key, v, recs[i]);
      hide MissingRow;
    }
    if recs != [] {
      assert recs[0] in recs;
      assert v == recs[0].version;
    }
    hide FlushRecords, MissingRow, ReportsMissing;
  }

  /** The rows of flushed records, one report each. */
  lemma {:induction false} FlushedRows(key: TemplateKey, recs: seq<PendingRecord>, v: Version)
    ensures var rows := RowsOf(FlushRecords(key, recs, v));
      |rows| == |recs| && forall i :: 0 <= i < |recs| ==> ReportsMissing(rows[i], key, v, recs[i])
  {
    hide MissingRow, ReportsMissing;
    if recs != [] {
      FlushedRows(key, recs[1..], v);
      MissingRowReports(key, v, recs[0]);
      var es := FlushRecords(key, recs, v);
      assert es[1..] == FlushRecords(key, recs[1..], v);
    }
  }
}

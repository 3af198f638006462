/** A worker without storage: what is lost at a batch boundary, exactly. */
module NoStorage {
  import opened Wire
  import opened Flow
  import opened KeyOrder
  import opened CacheSpec
  import opened DataSet
  import opened Headers
  import opened Framing
  import opened Templates
  import opened Scan
  import opened Invariants
  import opened KeyView
  import opened KeyTheorems
  import opened Isolation
  import opened Budget
  import opened Batches

  /** How many copies of an item are still buffered when the cold batches end, and forgotten there. */
  ghost function Lost(ext: Externals, batches: seq<seq<Step>>, i: Item): nat {
    if batches == [] then 0
    else Waiting(Run(ext, EmptyCache(), batches[0]).cache.pending, i) + Lost(ext, batches[1..], i)
  }

  lemma {:induction false} AllArrivalsConcat(a: seq<Step>, b: seq<Step>)
    ensures AllArrivals(a + b) == AllArrivals(a) + AllArrivals(b)
  {
    hide Arrivals;
    if a == [] {
      assert a + b == b;
    } else {
      assert (a + b)[0] == a[0] && (a + b)[1..] == a[1..] + b;
      AllArrivalsConcat(a[1..], b);
      var first := Arrivals(a[0]);
      assert first + (AllArrivals(a[1..]) + AllArrivals(b)) == first + AllArrivals(a[1..]) + AllArrivals(b);
    }
  }

  lemma {:induction false} ColdCounts(ext: Externals, batches: seq<seq<Step>>, i: Item)
    ensures multiset(AllArrivals(Flatten(batches)))[i]
         == SettledCount(ColdEvents(ext, batches), i) + Lost(ext, batches, i)
  {
    hide Run, EmptyCache, AllArrivals;
    if batches == [] {
      SettledCountCons(Direct([]), [], i);
      NoArrivals();
    } else {
      var first := Run(ext, EmptyCache(), batches[0]);
      RunCounts(ext, EmptyCache(), batches[0], i);
      NothingWaits(i);
      ColdCounts(ext, batches[1..], i);
      AllArrivalsConcat(batches[0], Flatten(batches[1..]));
      SettledCountConcat(first.events, ColdEvents(ext, batches[1..]), i);
      hide Waiting, SettledCount;
    }
  }

  lemma NoArrivals()
    ensures AllArrivals([]) == []
  {
  }

  lemma NothingWaits(i: Item)
    ensures Waiting(EmptyCache().pending, i) == 0
  {
  }

  /** Accounting without storage, for any batches: each Data Set is settled exactly once or lost at a boundary. */
  lemma ColdAccounting(ext: Externals, batches: seq<seq<Step>>, i: Item)
    ensures multiset(AllArrivals(Flatten(batches)))[i]
         == SettledCount(RunBatches(ext, None, batches).events, i) + Lost(ext, batches, i)
  {
    ColdCounts(ext, batches, i);
    WithoutStorage(ext, batches);
    hide RunBatches, ColdEvents, Lost, Flatten, AllArrivals, SettledCount;
  }

  // What is lost, from the input alone.

  /** Some step of the batch defines the key. */
  predicate Defines(acts: seq<KeyAct>) {
    exists a :: a in acts && a.Bring? && a.defs != []
  }

  /** The records brought since the last flush, after those that waited before. */
  function SinceFlush(waiting: seq<PendingRecord>, acts: seq<KeyAct>): seq<PendingRecord>
    decreases |acts|
  {
    if acts == [] then waiting
    else SinceFlush(if acts[0].GiveUp? then [] else waiting + acts[0].records, acts[1..])
  }

  /** Without a flush these are all the records brought. */
  lemma {:induction false} WithoutFlush(waiting: seq<PendingRecord>, acts: seq<KeyAct>)
    requires forall a :: a in acts ==> a.Bring?
    ensures SinceFlush(waiting, acts) == waiting + AllRecords(acts)
    decreases |acts|
  {
    if acts == [] {
      assert waiting + [] == waiting;
    } else {
      WithoutFlush(waiting + acts[0].records, acts[1..]);
      assert waiting + acts[0].records + AllRecords(acts[1..]) == waiting + (acts[0].records + AllRecords(acts[1..]));
    }
  }

  lemma DefinesCons(acts: seq<KeyAct>)
    requires acts != []
    ensures Defines(acts) <==> (acts[0].Bring? && acts[0].defs != []) || Defines(acts[1..])
  {
    assert forall a :: a in acts <==> a == acts[0] || a in acts[1..];
  }

  lemma {:induction false} KnownNeverWaits(key: TemplateKey, l: Layout, acts: seq<KeyAct>)
    ensures KeyRun(key, KeyState(Some(l), []), acts).state.waiting == []
    decreases |acts|
  {
    if acts != [] {
      var next := KeyStep(key, KeyState(Some(l), []), acts[0]).state;
      assert next.layout.Some? && next.waiting == [];
      KnownNeverWaits(key, next.layout.value, acts[1..]);
      hide KeyStep;
    }
  }

  lemma {:induction false} WaitingAtEnd(key: TemplateKey, waiting: seq<PendingRecord>, acts: seq<KeyAct>)
    ensures KeyRun(key, KeyState(None, waiting), acts).state.waiting
         == if Defines(acts) then [] else SinceFlush(waiting, acts)
    decreases |acts|
  {
    if acts != [] {
      var next := KeyStep(key, KeyState(None, waiting), acts[0]).state;
      DefinesCons(acts);
      if acts[0].Bring? && acts[0].defs != [] {
        assert next.layout.Some? && next.waiting == [];
        KnownNeverWaits(key, next.layout.value, acts[1..]);
      } else {
        assert next == KeyState(None, if acts[0].GiveUp? then [] else waiting + acts[0].records);
        WaitingAtEnd(key, next.waiting, acts[1..]);
      }
      hide KeyStep, Defines;
    }
  }

  /** The batch alone cannot reach the default caps. */
  predicate WithinDefaults(ext: Externals, batch: seq<Step>) {
    |RunKeys(ext, batch)| <= DEFAULT_CAP_ENTRIES && RunBytes(batch) <= DEFAULT_CAP_PENDING_BYTES
  }

  /** What a cold batch leaves waiting for a key: nothing if it defines the key, else all it brought since its flush. */
  lemma ColdBatchLeaves(ext: Externals, batch: seq<Step>, key: TemplateKey)
    requires WithinDefaults(ext, batch)
    ensures var acts := ActsOf(ext, batch, key);
      && WaitingAt(Run(ext, EmptyCache(), batch).cache.pending, key)
         == (if Defines(acts) then [] else SinceFlush([], acts))
      && (Flush !in batch ==> SinceFlush([], acts) == AllRecords(acts))
  {
    hide Run, KeyRun, ActsOf, SinceFlush, Defines, AllRecords, WithinDefaults;
    var acts := ActsOf(ext, batch, key);
    ColdView(ext, batch, key);
    WaitingAtEnd(key, [], acts);
    if Flush !in batch {
      BringsOnly(ext, batch, key);
      WithoutFlush([], acts);
      assert [] + AllRecords(acts) == AllRecords(acts);
    }
  }

  /** Within the default caps a cold batch moves each key as the reference machine does from its first state. */
  lemma ColdView(ext: Externals, batch: seq<Step>, key: TemplateKey)
    requires WithinDefaults(ext, batch)
    ensures View(Run(ext, EmptyCache(), batch).cache, key)
         == KeyRun(key, KeyState(None, []), ActsOf(ext, batch, key)).state
  {
    hide RunKeys, RunBytes, Run, KeyRun, ActsOf, EventsFor, Valid, Quiet;
    var c := EmptyCache();
    EmptyIsValid();
    assert c.entries.Keys + RunKeys(ext, batch) == RunKeys(ext, batch);
    WithinBudgetFits(ext, c, batch);
    RunRefines(ext, c, batch, key);
    assert View(c, key) == KeyState(None, []);
  }

  lemma {:induction false} BringsOnly(ext: Externals, batch: seq<Step>, key: TemplateKey)
    requires Flush !in batch
    ensures forall a :: a in ActsOf(ext, batch, key) ==> a.Bring?
  {
    if batch != [] {
      assert batch[0] in batch;
      assert ActOf(ext, batch[0], key).Bring?;
      BringsOnly(ext, batch[1..], key);
      hide ActOf;
    }
  }

  /** The batch brings Data Sets for the key that it neither defines the key for nor flushes. */
  predicate Strands(ext: Externals, batch: seq<Step>, key: TemplateKey) {
    !Defines(ActsOf(ext, batch, key)) && SinceFlush([], ActsOf(ext, batch, key)) != []
  }

  ghost predicate StrandsNone(ext: Externals, batch: seq<Step>) {
    forall key :: !Strands(ext, batch, key)
  }

  ghost predicate LosesNothing(ext: Externals, batches: seq<seq<Step>>) {
    forall i: Item :: Lost(ext, batches, i) == 0
  }

  /** Nothing waits for any key. */
  ghost predicate EmptyBuffer(p: Pending) {
    forall key :: WaitingAt(p, key) == []
  }

  lemma StrandsNoneIff(ext: Externals, batch: seq<Step>)
    requires WithinDefaults(ext, batch)
    ensures StrandsNone(ext, batch) <==> EmptyBuffer(Run(ext, EmptyCache(), batch).cache.pending)
  {
    hide Run, WithinDefaults, ActsOf, EmptyCache, WaitingAt, Strands;
    var p := Run(ext, EmptyCache(), batch).cache.pending;
    forall key ensures Strands(ext, batch, key) <==> WaitingAt(p, key) != [] {
      StrandsIff(ext, batch, key);
    }
  }

  lemma StrandsIff(ext: Externals, batch: seq<Step>, key: TemplateKey)
    requires WithinDefaults(ext, batch)
    ensures Strands(ext, batch, key) <==> WaitingAt(Run(ext, EmptyCache(), batch).cache.pending, key) != []
  {
    hide Run, WithinDefaults, ActsOf, Defines, SinceFlush, EmptyCache, WaitingAt;
    ColdBatchLeaves(ext, batch, key);
  }

  lemma BatchLosesIff(ext: Externals, batch: seq<Step>)
    requires WithinDefaults(ext, batch)
    ensures Forgets(Run(ext, EmptyCache(), batch).cache.pending) <==> !StrandsNone(ext, batch)
  {
    hide Run, WithinDefaults, StrandsNone, EmptyCache, Forgets, EmptyBuffer;
    StrandsNoneIff(ext, batch);
    WaitsNowhere(Run(ext, EmptyCache(), batch).cache.pending);
  }

  lemma WaitsNowhere(p: Pending)
    ensures Forgets(p) <==> !EmptyBuffer(p)
  {
    hide WaitingAt;
    forall key | WaitingAt(p, key) != [] ensures exists i :: Waiting(p, i) > 0 {
      assert WaitingAt(p, key)[0] in multiset(WaitingAt(p, key));
      assert Waiting(p, Item(key, WaitingAt(p, key)[0])) > 0;
    }
  }

  ghost predicate Forgets(p: Pending) {
    exists i: Item :: Waiting(p, i) != 0
  }

  lemma LosesCons(ext: Externals, batches: seq<seq<Step>>)
    requires batches != []
    ensures LosesNothing(ext, batches)
       <==> !Forgets(Run(ext, EmptyCache(), batches[0]).cache.pending) && LosesNothing(ext, batches[1..])
  {
    hide Waiting, Run, EmptyCache;
    var p := Run(ext, EmptyCache(), batches[0]).cache.pending;
    assert forall i :: Lost(ext, batches, i) == Waiting(p, i) + Lost(ext, batches[1..], i);
    hide Lost;
  }

  /** No batch strands a key. */
  ghost predicate NoneStrands(ext: Externals, batches: seq<seq<Step>>) {
    forall b :: b in batches ==> StrandsNone(ext, b)
  }

  lemma NoneStrandsCons(ext: Externals, batches: seq<seq<Step>>)
    requires batches != []
    ensures NoneStrands(ext, batches) <==> StrandsNone(ext, batches[0]) && NoneStrands(ext, batches[1..])
  {
    hide StrandsNone;
    assert forall b :: b in batches <==> b == batches[0] || b in batches[1..];
  }

  lemma {:induction false} LosesNothingIff(ext: Externals, batches: seq<seq<Step>>)
    requires forall b :: b in batches ==> WithinDefaults(ext, b)
    ensures LosesNothing(ext, batches) <==> NoneStrands(ext, batches)
  {
    hide WithinDefaults, StrandsNone, Run, EmptyCache;
    if batches != [] {
      hide LosesNothing, NoneStrands, Forgets;
      assert batches[0] in batches;
      BatchLosesIff(ext, batches[0]);
      LosesCons(ext, batches);
      NoneStrandsCons(ext, batches);
      LosesNothingIff(ext, batches[1..]);
    }
  }

  /**
   * Without storage, batches that each stay within the default caps settle every Data Set they bring, each exactly
   * once, if and only if no batch strands a key: each batch that brings Data Sets for a key also defines the key, or
   * flushes after the last of them.
   */
  lemma ConservesIff(ext: Externals, batches: seq<seq<Step>>)
    requires forall b :: b in batches ==> WithinDefaults(ext, b)
    ensures multiset(SettledItems(RunBatches(ext, None, batches).events)) == multiset(AllArrivals(Flatten(batches)))
       <==> NoneStrands(ext, batches)
  {
    LosesNothingIff(ext, batches);
    var settled, came := SettledItems(RunBatches(ext, None, batches).events), AllArrivals(Flatten(batches));
    forall i: Item ensures multiset(came)[i] == multiset(settled)[i] + Lost(ext, batches, i) {
      ColdAccounting(ext, batches, i);
      hide RunBatches, SettledItems, AllArrivals, Flatten, Lost, NoneStrands;
    }
    hide RunBatches, SettledItems, AllArrivals, Flatten, Lost, WithinDefaults, NoneStrands;
    SameCounts(settled, came);
  }

  lemma SameCounts(a: seq<Item>, b: seq<Item>)
    ensures multiset(a) == multiset(b) <==> forall i: Item :: multiset(a)[i] == multiset(b)[i]
  {
  }

  lemma OneStepRun(ext: Externals, c: CacheState, step: Step)
    ensures Run(ext, c, [step]) == DoStep(ext, c, step)
  {
    hide DoStep;
    EmptyRun(ext, DoStep(ext, c, step).cache);
    assert [step][1..] == [];
  }

  /** A first datagram that carries one Data Set only buffers it. */
  lemma LoneDataWaits(ext: Externals, i: Input, f: Frame, s: WireSet)
    requires InputFrame(i) == Some(f) && f.sets == [s] && s.id >= 256
    ensures DecodeDatagram(ext, EmptyCache(), i).events == []
  {
    hide DecodeDataSet, Probe, RetryKeys, DefsOf, Learn, ArriveAll, InputFrame, DecodeByVersion, DecodeDatagram;
    var c, now, fo := EmptyCache(), i.opts.now, i.opts.mode.DropsOptions();
    FrameBodiesSmall(i);
    ByVersion(ext, c, i);
    assert s in f.sets;
    LoneDefinesNothing(ext, f, s);
    LearnNothing(c, f.exporter, f.domain, now);
    LoneArrives(c, f, s, now, fo);
    var waiting := Arrive(c, f, s, now, fo).cache;
    var keys := SortedKeys(waiting.pending.Keys);
    RetryNothingDue(waiting, keys, now, fo);
    RetryAll(ext, c, i);
    hide Arrive;
  }

  lemma LoneDefinesNothing(ext: Externals, f: Frame, s: WireSet)
    requires s.id >= 256
    ensures DefsOf(ext, f.version, [s]) == []
  {
    assert [s][1..] == [];
    assert DefsOf(ext, f.version, [s]) == [] + DefsOf(ext, f.version, []);
  }

  lemma LoneArrives(c: CacheState, f: Frame, s: WireSet, now: i64, fo: bool)
    requires c == EmptyCache() && s.id >= 256 && |s.body| < TWO_16
    ensures var one := Arrive(c, f, s, now, fo);
      && one.events == [] && one.cache.entries == map[]
      && ArriveAll(c, f, [s], now, fo) == Outcome(one.cache, [])
  {
    hide DecodeDataSet;
    var one := Arrive(c, f, s, now, fo);
    SmallMod(|s.body|);
    assert [s][1..] == [];
    assert ArriveAll(one.cache, f, [], now, fo) == Outcome(one.cache, []);
  }

  /** The smallest loss: a Data Set alone in its batch and a flush in the next one emit nothing at all. */
  lemma WithoutStorageDataIsLost(ext: Externals, i: Input, f: Frame, s: WireSet)
    requires InputFrame(i) == Some(f) && f.sets == [s] && s.id >= 256
    ensures Arrivals(Datagram(i)) == [Item(KeyFor(f, s.id), RecordFor(f, s.body))]
    ensures RunBatches(ext, None, [[Datagram(i)], [Flush]]).events == []
  {
    hide DecodeDatagram, InputFrame, FlushPending;
    var c, d, u := EmptyCache(), Datagram(i), Flush;
    LoneDataWaits(ext, i, f, s);
    assert ItemsOf(f, [s]) == ItemOf(f, s) + ItemsOf(f, [s][1..]);
    FlushOfNothing(c);
    OneStepRun(ext, c, d);
    OneStepRun(ext, c, u);
    WithoutStorage(ext, [[d], [u]]);
    hide Run, RunBatches;
    assert [[d], [u]][1..] == [[u]] && [[u]][1..] == [];
    assert ColdEvents(ext, [[u]]) == [] + ColdEvents(ext, []);
  }

  lemma FlushOfNothing(c: CacheState)
    requires c.pending == map[]
    ensures FlushPending(c).events == []
  {
  }
}

/** When a run is sure to reach neither cap: a condition on its input alone. */
module Budget {
  import opened Wire
  import opened Flow
  import opened KeyOrder
  import opened CacheSpec
  import opened DataSet
  import opened Framing
  import opened Headers
  import opened Templates
  import opened Scan
  import opened Invariants
  import opened KeyView

  function StepKeys(ext: Externals, s: Step): set<TemplateKey> {
    if !s.Datagram? || InputFrame(s.input).None? then {}
    else
      var f := InputFrame(s.input).value;
      DefKeys(f.exporter, f.domain, DefsOf(ext, f.version, f.sets))
  }

  /** Every key a run defines. */
  function RunKeys(ext: Externals, steps: seq<Step>): set<TemplateKey> {
    if steps == [] then {} else StepKeys(ext, steps[0]) + RunKeys(ext, steps[1..])
  }

  function ItemBytes(items: seq<Item>): nat {
    if items == [] then 0 else |items[0].rec.payload| + ItemBytes(items[1..])
  }

  /** Every Data Set byte a run carries. */
  function RunBytes(steps: seq<Step>): nat {
    if steps == [] then 0 else ItemBytes(Arrivals(steps[0])) + RunBytes(steps[1..])
  }

  lemma {:induction false} ItemBytesConcat(a: seq<Item>, b: seq<Item>)
    ensures ItemBytes(a + b) == ItemBytes(a) + ItemBytes(b)
  {
    if a == [] {
      assert a + b == b;
    } else {
      assert (a + b)[1..] == a[1..] + b;
      ItemBytesConcat(a[1..], b);
    }
  }

  lemma ArriveWithin(c: CacheState, f: Frame, s: WireSet, now: i64, fo: bool)
    requires Valid(c) && |s.body| < TWO_16
    requires c.pendingBytes + ItemBytes(ItemOf(f, s)) <= c.capPendingBytes
    ensures var o := Arrive(c, f, s, now, fo);
      && NoneRefused(o.events) && o.cache.pendingBytes <= c.pendingBytes + ItemBytes(ItemOf(f, s))
  {
    hide Valid, CanPush, DecodeDataSet;
    PushKeepsValid(c, KeyFor(f, s.id), RecordFor(f, s.body));
    if s.id >= 256 {
      assert ItemBytes(ItemOf(f, s)) == |s.body| + ItemBytes(ItemOf(f, s)[1..]);
    }
    hide Push;
  }

  lemma {:induction false} ArriveAllWithin(c: CacheState, f: Frame, sets: seq<WireSet>, now: i64, fo: bool)
    requires Valid(c) && SmallBodies(sets)
    requires c.pendingBytes + ItemBytes(ItemsOf(f, sets)) <= c.capPendingBytes
    ensures var o := ArriveAll(c, f, sets, now, fo);
      && NoneRefused(o.events) && o.cache.pendingBytes <= c.pendingBytes + ItemBytes(ItemsOf(f, sets))
    decreases |sets|
  {
    hide Valid, Arrive, ItemOf;
    if sets != [] {
      assert sets[0] in sets;
      ItemBytesConcat(ItemOf(f, sets[0]), ItemsOf(f, sets[1..]));
      ArriveWithin(c, f, sets[0], now, fo);
      ArriveKeeps(c, f, sets[0], now, fo);
      ArriveAllWithin(Arrive(c, f, sets[0], now, fo).cache, f, sets[1..], now, fo);
    }
  }

  lemma {:induction false} SettleRefusesNone(k: TemplateKey, recs: seq<PendingRecord>, e: TemplateEntry, fo: bool)
    ensures NoneRefused(Settle(k, recs, e, fo))
  {
    hide DecodeDataSet;
    if recs != [] {
      SettleRefusesNone(k, recs[1..], e, fo);
    }
  }

  lemma {:induction false} RetryWithin(c: CacheState, keys: seq<TemplateKey>, now: i64, fo: bool)
    ensures var o := RetryKeys(c, keys, now, fo);
      && NoneRefused(o.events) && o.cache.pendingBytes <= c.pendingBytes && o.cache.entries.Keys == c.entries.Keys
    decreases |keys|
  {
    if keys != [] {
      var one := RetryKey(c, keys[0], now, fo);
      assert one.cache.entries.Keys == c.entries.Keys && one.cache.pendingBytes <= c.pendingBytes by {
        hide Settle, PayloadBytes, Touch;
      }
      if keys[0] in c.entries {
        var c' := Use(c, keys[0], now);
        SettleRefusesNone(keys[0], WaitingAt(c'.pending, keys[0]), c'.entries[keys[0]], fo);
      }
      hide RetryKey, Settle;
      RetryWithin(one.cache, keys[1..], now, fo);
    }
  }

  lemma {:induction false} LearnKeys(
    c: CacheState, exporter: string, domain: u32, defs: seq<TemplateDef>, now: i64)
    requires Valid(c)
    ensures Learn(c, exporter, domain, defs, now).entries.Keys <= c.entries.Keys + DefKeys(exporter, domain, defs)
    ensures Learn(c, exporter, domain, defs, now).pendingBytes == c.pendingBytes
    decreases |defs|
  {
    hide Valid, DefKeys;
    if defs != [] {
      var k, e := TemplateKey(exporter, domain, defs[0].id), EntryOf(defs[0], now);
      DefKeysCons(exporter, domain, defs);
      UpsertKeepsValid(c, k, e);
      assert Upsert(c, k, e).entries.Keys <= c.entries.Keys + {k};
      hide Upsert;
      LearnKeys(Upsert(c, k, e), exporter, domain, defs[1..], now);
    }
  }

  /** One step within budget fits, and uses up no more of the budget than it brings. */
  lemma FrameWithin(ext: Externals, c: CacheState, i: Input)
    requires Valid(c) && Quiet(c) && InputFrame(i).Some?
    requires |c.entries.Keys + StepKeys(ext, Datagram(i))| <= c.capEntries
    requires c.pendingBytes + ItemBytes(Arrivals(Datagram(i))) <= c.capPendingBytes
    ensures FitsCaps(ext, c, Datagram(i))
    ensures var r := DecodeDatagram(ext, c, i).cache;
      && r.entries.Keys <= c.entries.Keys + StepKeys(ext, Datagram(i))
      && r.pendingBytes <= c.pendingBytes + ItemBytes(Arrivals(Datagram(i)))
  {
    hide Probe, DefsOf, ItemsOf, ItemBytes, Valid, Quiet, NoneRefused, RetryKeys, DefKeys;
    var f, fo := InputFrame(i).value, i.opts.mode.DropsOptions();
    var defs := DefsOf(ext, f.version, f.sets);
    var learned := Learn(c, f.exporter, f.domain, defs, i.opts.now);
    var o1, o := DecodeByVersion(ext, c, i), DecodeDatagram(ext, c, i);
    ByVersion(ext, c, i);
    FrameBodiesSmall(i);
    hide InputFrame, DecodeByVersion;
    LearnKeeps(c, f.exporter, f.domain, defs, i.opts.now);
    LearnKeys(c, f.exporter, f.domain, defs, i.opts.now);
    hide Learn;
    ArriveAllWithin(learned, f, f.sets, i.opts.now, fo);
    ArriveAllKeeps(learned, f, f.sets, i.opts.now, fo);
    hide ArriveAll;
    var keys := SortedKeys(o1.cache.pending.Keys);
    RetryWithin(o1.cache, keys, i.opts.now, fo);
    RetryOfNothing(o1.cache, i.opts.now, fo);
    var r := RetryKeys(o1.cache, keys, i.opts.now, fo);
    assert o == Outcome(r.cache, o1.events + r.events);
    hide DecodeDatagram;
    NoneRefusedJoins(o1.events, r.events);
  }

  lemma NoneRefusedJoins(a: seq<Event>, b: seq<Event>)
    requires NoneRefused(a) && NoneRefused(b)
    ensures NoneRefused(a + b)
  {
  }

  lemma StepWithin(ext: Externals, c: CacheState, s: Step)
    requires Valid(c) && Quiet(c)
    requires |c.entries.Keys + StepKeys(ext, s)| <= c.capEntries
    requires c.pendingBytes + ItemBytes(Arrivals(s)) <= c.capPendingBytes
    ensures FitsCaps(ext, c, s)
    ensures var r := DoStep(ext, c, s).cache;
      && r.capEntries == c.capEntries && r.capPendingBytes == c.capPendingBytes
      && r.entries.Keys <= c.entries.Keys + StepKeys(ext, s)
      && r.pendingBytes <= c.pendingBytes + ItemBytes(Arrivals(s))
  {
    StepKeepsCaps(ext, c, s);
    hide DecodeDatagram, FromDto, ToDto, Valid, Quiet, ItemBytes;
    match s
    case Datagram(i) =>
      if InputFrame(i).Some? {
        FrameWithin(ext, c, i);
      } else {
        UnframedKeeps(ext, c, i);
      }
      hide InputFrame, FitsCaps, StepKeys, Arrivals;
    case Rehydrate =>
      RehydrateIdentity(c);
    case Flush =>
      hide FlushPairs;
  }

  lemma UnframedKeeps(ext: Externals, c: CacheState, i: Input)
    requires Quiet(c) && InputFrame(i).None?
    ensures DecodeDatagram(ext, c, i).cache.entries.Keys == c.entries.Keys
    ensures DecodeDatagram(ext, c, i).cache.pendingBytes <= c.pendingBytes
  {
    hide Probe, RetryKeys;
    ByVersion(ext, c, i);
    hide DecodeByVersion, InputFrame;
    RetryWithin(c, SortedKeys(c.pending.Keys), i.opts.now, i.opts.mode.DropsOptions());
  }

  lemma StepKeepsCaps(ext: Externals, c: CacheState, s: Step)
    requires Valid(c)
    ensures DoStep(ext, c, s).cache.capEntries == c.capEntries
    ensures DoStep(ext, c, s).cache.capPendingBytes == c.capPendingBytes
  {
    hide Valid, DecodeByVersion, Probe, FlushPairs, RetryKeys;
    if s.Datagram? {
      var i := s.input;
      var o := DecodeByVersion(ext, c, i);
      var fo := i.opts.mode.DropsOptions();
      DecodeByVersionKeeps(ext, c, i);
      DecodeKeepsCaps(ext, c, i);
      RetryKeeps(o.cache, SortedKeys(o.cache.pending.Keys), i.opts.now, fo);
      hide InputFrame;
    }
  }

  lemma DecodeKeepsCaps(ext: Externals, c: CacheState, i: Input)
    requires Valid(c)
    ensures DecodeByVersion(ext, c, i).cache.capEntries == c.capEntries
    ensures DecodeByVersion(ext, c, i).cache.capPendingBytes == c.capPendingBytes
  {
    ByVersion(ext, c, i);
    hide Valid, DecodeByVersion, Probe, InputFrame;
    if InputFrame(i).Some? {
      var f := InputFrame(i).value;
      FrameBodiesSmall(i);
      LearnKeeps(c, f.exporter, f.domain, DefsOf(ext, f.version, f.sets), i.opts.now);
      ArriveAllKeeps(Learn(c, f.exporter, f.domain, DefsOf(ext, f.version, f.sets), i.opts.now), f, f.sets, i.opts.now,
        i.opts.mode.DropsOptions());
      hide Learn, ArriveAll, DefsOf;
    }
  }

  /**
   * A run whose distinct template keys fit the entry cap and whose Data Sets all together fit the byte cap reaches
   * neither cap at any point, however it is ordered, rehydrated and flushed.
   */
  lemma {:induction false} WithinBudgetFits(ext: Externals, c: CacheState, steps: seq<Step>)
    requires Valid(c) && Quiet(c)
    requires |c.entries.Keys + RunKeys(ext, steps)| <= c.capEntries
    requires c.pendingBytes + RunBytes(steps) <= c.capPendingBytes
    ensures RunFitsCaps(ext, c, steps)
    decreases |steps|
  {
    hide Valid, Quiet, FitsCaps, DoStep, StepKeys, Arrivals, ItemBytes;
    if steps != [] {
      var first, rest := StepKeys(ext, steps[0]), RunKeys(ext, steps[1..]);
      SubsetSize(c.entries.Keys + first, c.entries.Keys + RunKeys(ext, steps));
      StepWithin(ext, c, steps[0]);
      StepKeeps(ext, c, steps[0]);
      var c' := DoStep(ext, c, steps[0]).cache;
      SubsetSize(c'.entries.Keys + rest, c.entries.Keys + RunKeys(ext, steps));
      WithinBudgetFits(ext, c', steps[1..]);
    }
  }
}

/** Cache entries over whole runs: the scan acts on the entry map as a plain list of upserts and uses. */
module History {
  import opened Wire
  import opened Flow
  import opened KeyOrder
  import opened CacheSpec
  import opened DataSet
  import opened Framing
  import opened Headers
  import opened Templates
  import opened Scan
  import opened Invariants
  import opened KeyView
  import opened Projection
  import opened Isolation
  import opened Datagrams

  /** What a definition at `now` enters: its layout, first and last seen now, never used. */
  function NewEntry(d: TemplateDef, now: i64): TemplateEntry {
    TemplateEntry(d.kind, d.fields, d.scopeCount, now, now, 0)
  }

  function UpsertOps(exporter: string, domain: u32, defs: seq<TemplateDef>, now: i64): seq<Op> {
    if defs == [] then []
    else
      [DoUpsert(TemplateKey(exporter, domain, defs[0].id), NewEntry(defs[0], now))]
      + UpsertOps(exporter, domain, defs[1..], now)
  }

  function UseOps(keys: seq<TemplateKey>, now: i64): seq<Op> {
    if keys == [] then [] else [DoUse(keys[0], now)] + UseOps(keys[1..], now)
  }

  function ItemKeys(items: seq<Item>): seq<TemplateKey> {
    if items == [] then [] else [items[0].key] + ItemKeys(items[1..])
  }

  /** Same entries and entry cap. */
  ghost predicate SameEntries(c: CacheState, d: CacheState) {
    c.entries == d.entries && c.capEntries == d.capEntries
  }

  lemma ApplySame(c: CacheState, d: CacheState, op: Op)
    requires SameEntries(c, d)
    ensures SameEntries(Apply(c, op), Apply(d, op))
  {
    hide Evict, Inherit, Touch;
  }

  lemma {:induction false} ApplyAllSame(c: CacheState, d: CacheState, ops: seq<Op>)
    requires SameEntries(c, d)
    ensures SameEntries(ApplyAll(c, ops), ApplyAll(d, ops))
  {
    hide Apply, SameEntries;
    if ops != [] {
      var n := |ops| - 1;
      ApplyAllSame(c, d, ops[..n]);
      ApplySame(ApplyAll(c, ops[..n]), ApplyAll(d, ops[..n]), ops[n]);
    }
  }

  lemma {:induction false} ApplyAllConcat(c: CacheState, a: seq<Op>, b: seq<Op>)
    ensures ApplyAll(c, a + b) == ApplyAll(ApplyAll(c, a), b)
    decreases |b|
  {
    hide Apply;
    if b == [] {
      assert a + b == a;
    } else {
      var n := |b| - 1;
      assert (a + b)[..|a + b| - 1] == a + b[..n];
      ApplyAllConcat(c, a, b[..n]);
    }
  }

  lemma ApplyFirst(c: CacheState, op: Op, ops: seq<Op>)
    ensures ApplyAll(c, [op] + ops) == ApplyAll(Apply(c, op), ops)
    ensures ApplyAll(c, []) == c
  {
    ApplyAllConcat(c, [op], ops);
    assert [op][..0] == [];
    hide Apply;
  }

  lemma {:induction false} LearnIsOps(c: CacheState, exporter: string, domain: u32, defs: seq<TemplateDef>, now: i64)
    ensures Learn(c, exporter, domain, defs, now) == ApplyAll(c, UpsertOps(exporter, domain, defs, now))
    decreases |defs|
  {
    hide Upsert, ApplyAll;
    if defs == [] {
      ApplyFirst(c, DoUse(TemplateKey("", 0, 0), 0), []);
    } else {
      var op := DoUpsert(TemplateKey(exporter, domain, defs[0].id), NewEntry(defs[0], now));
      ApplyFirst(c, op, UpsertOps(exporter, domain, defs[1..], now));
      LearnIsOps(Apply(c, op), exporter, domain, defs[1..], now);
    }
  }

  lemma ArriveIsOps(c: CacheState, f: Frame, s: WireSet, now: i64, fo: bool)
    ensures SameEntries(Arrive(c, f, s, now, fo).cache, ApplyAll(c, UseOps(ItemKeys(ItemOf(f, s)), now)))
  {
    hide ApplyAll, Touch, DecodeDataSet, CanPush;
    var op := DoUse(KeyFor(f, s.id), now);
    ApplyFirst(c, op, []);
    if s.id >= 256 {
      var items := ItemOf(f, s);
      assert items[1..] == [];
      assert ItemKeys(items) == [op.key] + [] && ItemKeys(items)[1..] == [];
      assert UseOps(ItemKeys(items), now) == [op] + [];
    }
    ApplyFirst(Apply(c, op), op, []);
  }

  lemma {:induction false} UseOpsConcat(a: seq<Item>, b: seq<Item>, now: i64)
    ensures UseOps(ItemKeys(a + b), now) == UseOps(ItemKeys(a), now) + UseOps(ItemKeys(b), now)
  {
    if a == [] {
      assert a + b == b;
    } else {
      assert (a + b)[1..] == a[1..] + b;
      UseOpsConcat(a[1..], b, now);
      assert ItemKeys(a + b)[1..] == ItemKeys(a[1..] + b) && ItemKeys(a)[1..] == ItemKeys(a[1..]);
    }
  }

  lemma {:induction false} ArriveAllIsOps(c: CacheState, f: Frame, sets: seq<WireSet>, now: i64, fo: bool)
    ensures SameEntries(ArriveAll(c, f, sets, now, fo).cache, ApplyAll(c, UseOps(ItemKeys(ItemsOf(f, sets)), now)))
    decreases |sets|
  {
    hide Arrive, ApplyAll, ItemOf, ItemKeys, UseOps;
    if sets == [] {
      NoOps(c, now);
    } else {
      var a, b := ItemOf(f, sets[0]), ItemsOf(f, sets[1..]);
      var one := Arrive(c, f, sets[0], now, fo).cache;
      ArriveIsOps(c, f, sets[0], now, fo);
      ArriveAllIsOps(one, f, sets[1..], now, fo);
      ApplyAllSame(one, ApplyAll(c, UseOps(ItemKeys(a), now)), UseOps(ItemKeys(b), now));
      UseOpsConcat(a, b, now);
      ApplyAllConcat(c, UseOps(ItemKeys(a), now), UseOps(ItemKeys(b), now));
    }
  }

  lemma NoOps(c: CacheState, now: i64)
    ensures ApplyAll(c, UseOps(ItemKeys([]), now)) == c && ApplyAll(c, []) == c
  {
  }

  lemma {:induction false} RetryIsOps(c: CacheState, keys: seq<TemplateKey>, now: i64, fo: bool)
    ensures SameEntries(RetryKeys(c, keys, now, fo).cache, ApplyAll(c, UseOps(keys, now)))
    decreases |keys|
  {
    hide ApplyAll;
    if keys == [] {
      NoOps(c, now);
    } else {
      var one, op := RetryKey(c, keys[0], now, fo).cache, DoUse(keys[0], now);
      assert SameEntries(one, Apply(c, op)) by {
        hide Settle, PayloadBytes, Touch;
      }
      hide RetryKey, Apply, SameEntries;
      RetryIsOps(one, keys[1..], now, fo);
      ApplyAllSame(one, Apply(c, op), UseOps(keys[1..], now));
      ApplyFirst(c, op, UseOps(keys[1..], now));
      SameTransitive(RetryKeys(one, keys[1..], now, fo).cache, ApplyAll(one, UseOps(keys[1..], now)),
        ApplyAll(c, UseOps(keys, now)));
    }
  }

  lemma SameTransitive(a: CacheState, b: CacheState, c: CacheState)
    requires SameEntries(a, b) && SameEntries(b, c)
    ensures SameEntries(a, c)
  {
  }

  /** What a step does to the entries: its definitions, one use per Data Set, one use per key tried again. */
  ghost function StepOps(ext: Externals, c: CacheState, s: Step): seq<Op> {
    if !s.Datagram? then []
    else
      var i := s.input;
      var now := i.opts.now;
      var first :=
        if InputFrame(i).None? then []
        else
          var f := InputFrame(i).value;
          UpsertOps(f.exporter, f.domain, DefsOf(ext, f.version, f.sets), now)
          + UseOps(ItemKeys(ItemsOf(f, f.sets)), now);
      first + if Probe(i.data) in {Some(NetflowV9), Some(Ipfix)}
              then UseOps(SortedKeys(DecodeByVersion(ext, c, i).cache.pending.Keys), now) else []
  }

  ghost function RunOps(ext: Externals, c: CacheState, steps: seq<Step>): seq<Op>
    decreases |steps|
  {
    if steps == [] then [] else StepOps(ext, c, steps[0]) + RunOps(ext, DoStep(ext, c, steps[0]).cache, steps[1..])
  }

  lemma FirstPassIsOps(ext: Externals, c: CacheState, i: Input)
    ensures var ops := if InputFrame(i).None? then [] else
        UpsertOps(InputFrame(i).value.exporter, InputFrame(i).value.domain,
          DefsOf(ext, InputFrame(i).value.version, InputFrame(i).value.sets), i.opts.now)
        + UseOps(ItemKeys(ItemsOf(InputFrame(i).value, InputFrame(i).value.sets)), i.opts.now);
      SameEntries(DecodeByVersion(ext, c, i).cache, ApplyAll(c, ops))
  {
    ByVersion(ext, c, i);
    hide InputFrame, DecodeByVersion, Probe, ApplyAll, ItemsOf, DefsOf, ItemKeys, UseOps, UpsertOps;
    if InputFrame(i).None? {
      NoOps(c, 0);
    } else {
      var f, now := InputFrame(i).value, i.opts.now;
      var defs := DefsOf(ext, f.version, f.sets);
      LearnIsOps(c, f.exporter, f.domain, defs, now);
      ArriveAllIsOps(Learn(c, f.exporter, f.domain, defs, now), f, f.sets, now, i.opts.mode.DropsOptions());
      ApplyAllConcat(c, UpsertOps(f.exporter, f.domain, defs, now), UseOps(ItemKeys(ItemsOf(f, f.sets)), now));
    }
  }

  lemma StepIsOps(ext: Externals, c: CacheState, s: Step)
    ensures SameEntries(DoStep(ext, c, s).cache, ApplyAll(c, StepOps(ext, c, s)))
  {
    hide ApplyAll, InputFrame, DecodeByVersion, Probe, UseOps, UpsertOps, RetryKeys, ItemsOf, DefsOf;
    NoOps(c, 0);
    match s
    case Datagram(i) =>
      var now, fo := i.opts.now, i.opts.mode.DropsOptions();
      var ops := StepOps(ext, c, Datagram(i));
      FirstPassIsOps(ext, c, i);
      var o := DecodeByVersion(ext, c, i);
      var first := if InputFrame(i).None? then [] else
        UpsertOps(InputFrame(i).value.exporter, InputFrame(i).value.domain,
          DefsOf(ext, InputFrame(i).value.version, InputFrame(i).value.sets), now)
        + UseOps(ItemKeys(ItemsOf(InputFrame(i).value, InputFrame(i).value.sets)), now);
      if Probe(i.data) in {Some(NetflowV9), Some(Ipfix)} {
        var keys := SortedKeys(o.cache.pending.Keys);
        var last := UseOps(keys, now);
        assert ops == first + last;
        RetryIsOps(o.cache, keys, now, fo);
        ApplyAllSame(o.cache, ApplyAll(c, first), last);
        ApplyAllConcat(c, first, last);
        NothingToRetry(o.cache, now, fo);
      } else {
        assert ops == first + [] == first;
      }
    case Rehydrate =>
      CollectPairs(c.entries);
    case Flush =>
      hide FlushPairs;
  }

  lemma NothingToRetry(c: CacheState, now: i64, fo: bool)
    ensures c.pending == map[] ==> RetryKeys(c, SortedKeys(c.pending.Keys), now, fo).cache == c
  {
  }

  /** The entries after any run are those of its list of upserts and uses. */
  lemma {:induction false} RunIsOps(ext: Externals, c: CacheState, steps: seq<Step>)
    ensures SameEntries(Run(ext, c, steps).cache, ApplyAll(c, RunOps(ext, c, steps)))
    decreases |steps|
  {
    hide ApplyAll, DoStep, StepOps;
    if steps == [] {
      NoOps(c, 0);
    } else {
      var one := DoStep(ext, c, steps[0]).cache;
      var a, b := StepOps(ext, c, steps[0]), RunOps(ext, one, steps[1..]);
      StepIsOps(ext, c, steps[0]);
      RunIsOps(ext, one, steps[1..]);
      ApplyAllSame(one, ApplyAll(c, a), b);
      ApplyAllConcat(c, a, b);
    }
  }

  // The same list with the times of the steps, and what it says of an entry.

  /** A key defined or used by a step at its own time. */
  datatype Touched =
    | Defined(key: TemplateKey, def: TemplateDef, now: i64)
    | Used(key: TemplateKey, now: i64)

  function OpOf(t: Touched): Op {
    match t
    case Defined(key, def, now) => DoUpsert(key, NewEntry(def, now))
    case Used(key, now) => DoUse(key, now)
  }

  function OpsOf(ts: seq<Touched>): (ops: seq<Op>)
    ensures |ops| == |ts| && forall i :: 0 <= i < |ts| ==> ops[i] == OpOf(ts[i])
  {
    if ts == [] then [] else [OpOf(ts[0])] + OpsOf(ts[1..])
  }

  function DefinedBy(exporter: string, domain: u32, defs: seq<TemplateDef>, now: i64): seq<Touched> {
    if defs == [] then []
    else
      [Defined(TemplateKey(exporter, domain, defs[0].id), defs[0], now)]
      + DefinedBy(exporter, domain, defs[1..], now)
  }

  function UsedBy(keys: seq<TemplateKey>, now: i64): seq<Touched> {
    if keys == [] then [] else [Used(keys[0], now)] + UsedBy(keys[1..], now)
  }

  /** What a step at `now` touches: the keys it defines, one use per Data Set, one use per key tried again. */
  ghost function StepTouches(ext: Externals, c: CacheState, s: Step): seq<Touched> {
    if !s.Datagram? then []
    else
      var i := s.input;
      var now := i.opts.now;
      var first :=
        if InputFrame(i).None? then []
        else
          var f := InputFrame(i).value;
          DefinedBy(f.exporter, f.domain, DefsOf(ext, f.version, f.sets), now)
          + UsedBy(ItemKeys(ItemsOf(f, f.sets)), now);
      first + if Probe(i.data) in {Some(NetflowV9), Some(Ipfix)}
              then UsedBy(SortedKeys(DecodeByVersion(ext, c, i).cache.pending.Keys), now) else []
  }

  ghost function RunTouches(ext: Externals, c: CacheState, steps: seq<Step>): seq<Touched>
    decreases |steps|
  {
    if steps == [] then []
    else StepTouches(ext, c, steps[0]) + RunTouches(ext, DoStep(ext, c, steps[0]).cache, steps[1..])
  }

  lemma OpsOfConcat(a: seq<Touched>, b: seq<Touched>)
    ensures OpsOf(a + b) == OpsOf(a) + OpsOf(b)
  {
    hide OpOf;
  }

  lemma {:induction false} DefinedAreOps(exporter: string, domain: u32, defs: seq<TemplateDef>, now: i64)
    ensures OpsOf(DefinedBy(exporter, domain, defs, now)) == UpsertOps(exporter, domain, defs, now)
  {
    hide NewEntry;
    if defs != [] {
      var ts := DefinedBy(exporter, domain, defs, now);
      assert ts[1..] == DefinedBy(exporter, domain, defs[1..], now);
      DefinedAreOps(exporter, domain, defs[1..], now);
    }
  }

  lemma {:induction false} UsedAreOps(keys: seq<TemplateKey>, now: i64)
    ensures OpsOf(UsedBy(keys, now)) == UseOps(keys, now)
  {
    if keys != [] {
      assert UsedBy(keys, now)[1..] == UsedBy(keys[1..], now);
      UsedAreOps(keys[1..], now);
    }
  }

  lemma StepTouchesAreOps(ext: Externals, c: CacheState, s: Step)
    ensures OpsOf(StepTouches(ext, c, s)) == StepOps(ext, c, s)
  {
    hide InputFrame, DecodeByVersion, Probe, DefinedBy, UsedBy, UpsertOps, UseOps, OpsOf, ItemKeys, ItemsOf, DefsOf;
    OpsOfConcat([], []);
    assert OpsOf([]) == [];
    if s.Datagram? {
      var i := s.input;
      var now := i.opts.now;
      var keys := SortedKeys(DecodeByVersion(ext, c, i).cache.pending.Keys);
      UsedAreOps(keys, now);
      if InputFrame(i).Some? {
        var f := InputFrame(i).value;
        var defs, used := DefsOf(ext, f.version, f.sets), ItemKeys(ItemsOf(f, f.sets));
        DefinedAreOps(f.exporter, f.domain, defs, now);
        UsedAreOps(used, now);
        OpsOfConcat(DefinedBy(f.exporter, f.domain, defs, now), UsedBy(used, now));
        OpsOfConcat(DefinedBy(f.exporter, f.domain, defs, now) + UsedBy(used, now), UsedBy(keys, now));
        OpsOfConcat(DefinedBy(f.exporter, f.domain, defs, now) + UsedBy(used, now), []);
      } else {
        OpsOfConcat([], UsedBy(keys, now));
      }
    }
  }

  lemma {:induction false} RunTouchesAreOps(ext: Externals, c: CacheState, steps: seq<Step>)
    ensures OpsOf(RunTouches(ext, c, steps)) == RunOps(ext, c, steps)
    decreases |steps|
  {
    hide DoStep, StepOps, StepTouches, OpOf;
    if steps != [] {
      var next := DoStep(ext, c, steps[0]).cache;
      StepTouchesAreOps(ext, c, steps[0]);
      RunTouchesAreOps(ext, next, steps[1..]);
      OpsOfConcat(StepTouches(ext, c, steps[0]), RunTouches(ext, next, steps[1..]));
    }
  }

  /** The entries after any run are those of what its steps define and use, each at the step's own time. */
  lemma RunIsTouches(ext: Externals, c: CacheState, steps: seq<Step>)
    ensures Run(ext, c, steps).cache.entries == After(c, RunTouches(ext, c, steps)).entries
  {
    RunIsOps(ext, c, steps);
    RunTouchesAreOps(ext, c, steps);
    hide Run, RunTouches, RunOps, ApplyAll, OpsOf;
  }

  /** A cache after a list of touches. */
  ghost function After(c: CacheState, ts: seq<Touched>): CacheState {
    ApplyAll(c, OpsOf(ts))
  }

  function TouchesOf(ts: seq<Touched>, key: TemplateKey): seq<Touched> {
    if ts == [] then []
    else TouchesOf(ts[..|ts| - 1], key) + if ts[|ts| - 1].key == key then [ts[|ts| - 1]] else []
  }

  function LastDef(first: TemplateDef, ts: seq<Touched>): TemplateDef {
    if ts == [] then first
    else if ts[|ts| - 1].Defined? then ts[|ts| - 1].def
    else LastDef(first, ts[..|ts| - 1])
  }

  function CountUsed(ts: seq<Touched>): nat {
    if ts == [] then 0 else CountUsed(ts[..|ts| - 1]) + if ts[|ts| - 1].Used? then 1 else 0
  }

  /** An entry that tells its own history since `first` introduced it. */
  predicate Tells(e: TemplateEntry, first: TemplateDef, at: i64, ts: seq<Touched>) {
    var def := LastDef(first, ts);
    && (e.kind, e.fields, e.scopeFieldCount) == (def.kind, def.fields, def.scopeCount)
    && e.firstSeen == at
    && e.useCount == CountUsed(ts) % TWO_64
    && e.lastSeen == if ts == [] then at else ts[|ts| - 1].now
  }

  lemma {:induction false} AboutTouches(ts: seq<Touched>, key: TemplateKey)
    ensures About(OpsOf(ts), key) == OpsOf(TouchesOf(ts, key))
  {
    if ts != [] {
      var n := |ts| - 1;
      AboutTouches(ts[..n], key);
      assert OpsOf(ts)[..n] == OpsOf(ts[..n]);
      OpsOfConcat(TouchesOf(ts[..n], key), if ts[n].key == key then [ts[n]] else []);
      assert OpsOf([ts[n]]) == [OpOf(ts[n])];
      hide NewEntry;
    }
  }

  lemma {:induction false} LastDefOf(first: TemplateDef, ts: seq<Touched>)
    ensures var l, def := LastDefinition(OpsOf(ts)), LastDef(first, ts);
      if l.Some?
      then (l.value.kind, l.value.fields, l.value.scopeFieldCount) == (def.kind, def.fields, def.scopeCount)
      else def == first
    ensures CountUses(OpsOf(ts)) == CountUsed(ts)
  {
    if ts != [] {
      var n := |ts| - 1;
      assert OpsOf(ts)[..n] == OpsOf(ts[..n]);
      LastDefOf(first, ts[..n]);
    }
  }

  lemma MatchesTells(e: TemplateEntry, first: TemplateDef, at: i64, ts: seq<Touched>)
    requires MatchesHistory(e, NewEntry(first, at), OpsOf(ts))
    ensures Tells(e, first, at, ts)
  {
    LastDefOf(first, ts);
    if ts != [] {
      assert TimeOf(OpsOf(ts)[|ts| - 1]) == ts[|ts| - 1].now;
    }
    hide LastDef, LastDefinition, CountUsed, CountUses;
  }

  lemma AfterIntroduction(c: CacheState, before: seq<Touched>, first: Touched, since: seq<Touched>)
    requires first.Defined?
    ensures After(c, before + [first] + since)
         == ApplyAll(Upsert(After(c, before), first.key, NewEntry(first.def, first.now)), OpsOf(since))
  {
    hide Upsert, ApplyAll, NewEntry, OpsOf;
    OpsOfThree(before, first, since);
    SinceIntroduction(c, OpsOf(before), first.key, NewEntry(first.def, first.now), OpsOf(since));
  }

  lemma OpsOfThree(before: seq<Touched>, t: Touched, since: seq<Touched>)
    ensures OpsOf(before + [t] + since) == OpsOf(before) + [OpOf(t)] + OpsOf(since)
  {
    OpsOfConcat(before + [t], since);
    OpsOfConcat(before, [t]);
    OpsOfOne(t);
    hide OpsOf, OpOf;
  }

  lemma OpsOfOne(t: Touched)
    ensures OpsOf([t]) == [OpOf(t)]
  {
    hide OpOf;
  }

  lemma SinceIntroduction(c: CacheState, before: seq<Op>, key: TemplateKey, first: TemplateEntry, since: seq<Op>)
    ensures ApplyAll(c, before + [DoUpsert(key, first)] + since)
         == ApplyAll(Upsert(ApplyAll(c, before), key, first), since)
  {
    hide Upsert, ApplyAll;
    var op := DoUpsert(key, first);
    assert before + [op] + since == before + ([op] + since);
    ApplyAllConcat(c, before, [op] + since);
    ApplyFirst(ApplyAll(c, before), op, since);
  }

  lemma OpsOfPrefix(ts: seq<Touched>, n: nat)
    requires n <= |ts|
    ensures OpsOf(ts)[..n] == OpsOf(ts[..n])
  {
    hide OpOf;
  }

  /** The key stays cached through the operations as it does through the touches. */
  lemma StaysThroughOps(c: CacheState, before: seq<Touched>, first: Touched, since: seq<Touched>, n: nat)
    requires first.Defined? && n <= |since|
    requires first.key in After(c, before + [first] + since[..n]).entries
    ensures var prior := Upsert(After(c, before), first.key, NewEntry(first.def, first.now));
      first.key in ApplyAll(prior, OpsOf(since)[..n]).entries
  {
    AfterIntroduction(c, before, first, since[..n]);
    OpsOfPrefix(since, n);
    hide After, ApplyAll, Upsert, NewEntry, OpsOf;
  }

  /**
   * In any run, an entry that has stayed cached since a definition introduced it tells what the steps did to its key
   * since then: the last layout defined, the time of the step that introduced it, the number of uses, and the time
   * of the latest step that touched it.
   */
  lemma ScanEntryMatchesHistory(
    ext: Externals, c: CacheState, steps: seq<Step>, before: seq<Touched>, first: Touched, since: seq<Touched>)
    requires first.Defined? && RunTouches(ext, c, steps) == before + [first] + since
    requires first.key !in After(c, before).entries
    requires forall n :: 0 <= n <= |since| ==> first.key in After(c, before + [first] + since[..n]).entries
    ensures var m := Run(ext, c, steps).cache.entries;
      first.key in m && Tells(m[first.key], first.def, first.now, TouchesOf(since, first.key))
  {
    hide Run, RunTouches, Upsert, ApplyAll, MatchesHistory, About, TouchesOf, Tells, NewEntry, After, OpsOf;
    var key, prior, entry := first.key, After(c, before), NewEntry(first.def, first.now);
    RunIsTouches(ext, c, steps);
    AfterIntroduction(c, before, first, since);
    forall n | 0 <= n <= |since| ensures key in ApplyAll(Upsert(prior, key, entry), OpsOf(since)[..n]).entries {
      StaysThroughOps(c, before, first, since, n);
    }
    EntryMatchesHistory(prior, key, entry, OpsOf(since));
    AboutTouches(since, key);
    MatchesTells(Run(ext, c, steps).cache.entries[key], first.def, first.now, TouchesOf(since, key));
  }

  // One step, from the input alone.

  /** The key's entry, if there is one, was last touched at `now`. */
  ghost predicate TouchedAt(m: Entries, key: TemplateKey, now: i64) {
    key in m ==> m[key].lastSeen == now
  }

  /** The key's entry, if there is one, was introduced at `now` and not used yet. */
  ghost predicate NewAt(m: Entries, key: TemplateKey, now: i64) {
    key in m ==> m[key].firstSeen == now && m[key].useCount == 0
  }

  lemma {:induction false} LearnStamps(
    c: CacheState, exporter: string, domain: u32, defs: seq<TemplateDef>, now: i64, key: TemplateKey)
    ensures var r := Learn(c, exporter, domain, defs, now).entries;
      && (TouchedAt(c.entries, key, now) || key in DefKeys(exporter, domain, defs) ==> TouchedAt(r, key, now))
      && (NewAt(c.entries, key, now) ==> NewAt(r, key, now))
    decreases |defs|
  {
    if defs != [] {
      var k := TemplateKey(exporter, domain, defs[0].id);
      DefKeysCons(exporter, domain, defs);
      var once := Upsert(c, k, EntryOf(defs[0], now));
      UpsertAt(c, k, EntryOf(defs[0], now), key);
      assert TouchedAt(c.entries, key, now) || k == key ==> TouchedAt(once.entries, key, now);
      assert NewAt(c.entries, key, now) ==> NewAt(once.entries, key, now);
      hide Upsert, DefKeys, TouchedAt, NewAt, EntryOf;
      LearnStamps(once, exporter, domain, defs[1..], now, key);
    }
  }

  /** A cached key before and after `n` more uses at `now`. */
  ghost predicate UsedTimes(m: Entries, r: Entries, key: TemplateKey, n: nat, now: i64) {
    && key in m && key in r
    && r[key].firstSeen == m[key].firstSeen
    && r[key].useCount == (m[key].useCount + n) % TWO_64
    && r[key].lastSeen == if n == 0 then m[key].lastSeen else now
  }

  lemma UsedMore(m: Entries, r: Entries, q: Entries, key: TemplateKey, a: nat, b: nat, now: i64)
    requires UsedTimes(m, r, key, a, now) && UsedTimes(r, q, key, b, now)
    ensures UsedTimes(m, q, key, a + b, now)
  {
  }

  lemma UsedNever(m: Entries, key: TemplateKey, now: i64)
    requires key in m
    ensures UsedTimes(m, m, key, 0, now)
  {
  }

  lemma StillCached(m: Entries, r: Entries, key: TemplateKey, n: nat, now: i64)
    requires UsedTimes(m, r, key, n, now)
    ensures key in r
  {
  }

  lemma ArriveUses(c: CacheState, f: Frame, s: WireSet, now: i64, fo: bool, key: TemplateKey)
    requires key in c.entries
    ensures var r := Arrive(c, f, s, now, fo).cache;
      && UsedTimes(c.entries, r.entries, key, |RecordsFor(ItemOf(f, s), key)|, now)
      && (key in r.pending <==> key in c.pending)
  {
    UsedNever(c.entries, key, now);
    if s.id >= 256 {
      RecordsForOne(Item(KeyFor(f, s.id), RecordFor(f, s.body)), key);
    }
    hide DecodeWith, MissingRow, CanPush, RecordFor, KeyFor, RecordsFor;
  }

  function BroughtFor(f: Frame, sets: seq<WireSet>, key: TemplateKey): nat {
    |RecordsFor(ItemsOf(f, sets), key)|
  }

  lemma BroughtCons(f: Frame, sets: seq<WireSet>, key: TemplateKey)
    ensures sets == [] ==> BroughtFor(f, sets, key) == 0
    ensures sets != [] ==>
      BroughtFor(f, sets, key) == |RecordsFor(ItemOf(f, sets[0]), key)| + BroughtFor(f, sets[1..], key)
  {
    hide ItemOf;
    if sets != [] {
      RecordsForConcat(ItemOf(f, sets[0]), ItemsOf(f, sets[1..]), key);
      hide RecordsFor;
    }
  }

  lemma {:induction false} ArriveAllUses(
    c: CacheState, f: Frame, sets: seq<WireSet>, now: i64, fo: bool, key: TemplateKey)
    requires key in c.entries
    ensures var r := ArriveAll(c, f, sets, now, fo).cache;
      && UsedTimes(c.entries, r.entries, key, BroughtFor(f, sets, key), now)
      && (key in r.pending <==> key in c.pending)
    decreases |sets|
  {
    hide Arrive, UsedTimes, ItemOf, BroughtFor, RecordsFor;
    BroughtCons(f, sets, key);
    if sets == [] {
      UsedNever(c.entries, key, now);
    } else {
      var one := Arrive(c, f, sets[0], now, fo).cache;
      var n := |RecordsFor(ItemOf(f, sets[0]), key)|;
      ArriveUses(c, f, sets[0], now, fo, key);
      StillCached(c.entries, one.entries, key, n, now);
      ArriveAllUses(one, f, sets[1..], now, fo, key);
      UsedMore(c.entries, one.entries, ArriveAll(one, f, sets[1..], now, fo).cache.entries, key, n,
        BroughtFor(f, sets[1..], key), now);
    }
  }

  lemma {:induction false} RetryUses(c: CacheState, keys: seq<TemplateKey>, now: i64, fo: bool, key: TemplateKey)
    requires Increasing(keys) && key in c.entries
    ensures UsedTimes(c.entries, RetryKeys(c, keys, now, fo).cache.entries, key, if key in keys then 1 else 0, now)
    decreases |keys|
  {
    hide KeyLess;
    if keys == [] {
      UsedNever(c.entries, key, now);
    } else {
      var one := RetryKey(c, keys[0], now, fo).cache;
      KeyTotal(keys[0], keys[0]);
      assert keys[0] !in keys[1..];
      UsedNever(c.entries, key, now);
      assert UsedTimes(c.entries, one.entries, key, if keys[0] == key then 1 else 0, now) by {
        hide Settle, PayloadBytes;
      }
      RetryUses(one, keys[1..], now, fo, key);
      UsedMore(c.entries, one.entries, RetryKeys(c, keys, now, fo).cache.entries, key,
        if keys[0] == key then 1 else 0, if key in keys[1..] then 1 else 0, now);
    }
  }

  /**
   * From the input alone: a key that a datagram defines, and that is cached afterwards, was last seen at the time of
   * the datagram. If it was not cached before, it was first seen then too, and has been used once per Data Set the
   * datagram brought for it and once more if Data Sets were waiting for it.
   */
  lemma DefinitionStamps(ext: Externals, c: CacheState, i: Input, key: TemplateKey)
    requires InputFrame(i).Some?
    requires var f := InputFrame(i).value; key in DefKeys(f.exporter, f.domain, DefsOf(ext, f.version, f.sets))
    requires key in DecodeDatagram(ext, c, i).cache.entries
    ensures var f, e := InputFrame(i).value, DecodeDatagram(ext, c, i).cache.entries[key];
      && e.lastSeen == i.opts.now
      && (key !in c.entries ==>
            && e.firstSeen == i.opts.now
            && e.useCount
               == (BroughtFor(f, f.sets, key) + if key in c.pending then 1 else 0) % TWO_64)
  {
    hide InputFrame, Probe, DefsOf, BroughtFor, DefKeys, DecodeByVersion, Retry, DecodeFrame, DecodeDatagram;
    var f, now, fo := InputFrame(i).value, i.opts.now, i.opts.mode.DropsOptions();
    ByVersion(ext, c, i);
    RetryAll(ext, c, i);
    var o := DecodeByVersion(ext, c, i).cache;
    RetryUsesOnce(o, now, fo, key);
    PassesStamp(ext, c, f, now, fo, key);
    if key !in c.entries {
      UsesAdd(BroughtFor(f, f.sets, key), if key in c.pending then 1 else 0);
    }
  }

  lemma UsesAdd(n: nat, k: nat)
    ensures (n % TWO_64 + k) % TWO_64 == (n + k) % TWO_64
  {
  }

  /** The retry uses a cached key once if records wait for it. */
  lemma RetryUsesOnce(o: CacheState, now: i64, fo: bool, key: TemplateKey)
    ensures var r := Retry(o, now, fo).cache.entries;
      && r.Keys == o.entries.Keys
      && (key in r ==> UsedTimes(o.entries, r, key, if key in o.pending then 1 else 0, now))
  {
    hide RetryKeys, UsedTimes;
    var keys := SortedKeys(o.pending.Keys);
    RetriesKeepKeys(o, keys, now, fo);
    SortedIncreasing(o.pending.Keys);
    assert key in keys <==> key in o.pending.Keys;
    if key in o.entries {
      RetryUses(o, keys, now, fo, key);
    }
  }

  /** The passes of a datagram stamp a key they define; the retry is one use more. */
  lemma PassesStamp(ext: Externals, c: CacheState, f: Frame, now: i64, fo: bool, key: TemplateKey)
    requires key in DefKeys(f.exporter, f.domain, DefsOf(ext, f.version, f.sets))
    requires key in DecodeFrame(ext, c, f, now, fo).cache.entries
    ensures var r := DecodeFrame(ext, c, f, now, fo).cache;
      && r.entries[key].lastSeen == now && (key in r.pending <==> key in c.pending)
      && (key !in c.entries ==>
            && r.entries[key].firstSeen == now
            && r.entries[key].useCount == BroughtFor(f, f.sets, key) % TWO_64)
  {
    hide DefsOf, BroughtFor, DefKeys;
    var defs := DefsOf(ext, f.version, f.sets);
    var learned := Learn(c, f.exporter, f.domain, defs, now);
    LearnStamps(c, f.exporter, f.domain, defs, now, key);
    LearnLeavesPending(c, f.exporter, f.domain, defs, now);
    ArriveKeepsKeys(learned, f, f.sets, now, fo);
    assert key in learned.entries.Keys;
    ArriveAllUses(learned, f, f.sets, now, fo, key);
    hide Learn, ArriveAll;
  }

  lemma {:induction false} ArriveKeepsKeys(c: CacheState, f: Frame, sets: seq<WireSet>, now: i64, fo: bool)
    ensures ArriveAll(c, f, sets, now, fo).cache.entries.Keys == c.entries.Keys
    decreases |sets|
  {
    if sets != [] {
      var one := Arrive(c, f, sets[0], now, fo).cache;
      assert one.entries.Keys == c.entries.Keys by {
        hide DecodeWith, MissingRow, CanPush, Touch;
      }
      hide Arrive;
      ArriveKeepsKeys(one, f, sets[1..], now, fo);
    }
  }

  lemma {:induction false} RetriesKeepKeys(c: CacheState, keys: seq<TemplateKey>, now: i64, fo: bool)
    ensures RetryKeys(c, keys, now, fo).cache.entries.Keys == c.entries.Keys
    decreases |keys|
  {
    if keys != [] {
      RetryKeepsKeys(c, keys[0], now, fo);
      RetriesKeepKeys(RetryKey(c, keys[0], now, fo).cache, keys[1..], now, fo);
      hide RetryKey;
    }
  }

  /**
   * A definition later than every other entry's last touch survives its own upsert, whatever the cache holds, if the
   * cap allows any entry.
   */
  lemma LatestDefinitionSurvives(c: CacheState, exporter: string, domain: u32, def: TemplateDef, now: i64)
    requires c.capEntries > 0
    requires forall k :: k in c.entries && k != TemplateKey(exporter, domain, def.id) ==> c.entries[k].lastSeen < now
    ensures TemplateKey(exporter, domain, def.id) in Learn(c, exporter, domain, [def], now).entries
  {
    var key := TemplateKey(exporter, domain, def.id);
    LearnFirst(c, exporter, domain, def, [], now);
    LearnNothing(Upsert(c, key, EntryOf(def, now)), exporter, domain, now);
    assert [def] + [] == [def];
    YoungestSurvives(c.entries[key := Inherit(c.entries, key, EntryOf(def, now))], c.capEntries, key);
    hide Evict, Learn;
  }
}

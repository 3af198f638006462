/**
 * Non-interference between template namespaces. Project the cache onto one exporter and observation domain: as long
 * as the shared caps are not reached, the projection evolves exactly as if only that pair's datagrams had been fed.
 */
module Isolation {
  import opened Wire
  import opened Flow
  import opened KeyOrder
  import opened CacheSpec
  import opened DataSet
  import opened Framing
  import opened Headers
  import opened Templates
  import opened Scan
  import opened Invariants
  import opened KeyView

  datatype Scope = Scope(exporter: string, domain: u32)

  predicate InScope(k: TemplateKey, s: Scope) {
    k.exporter == s.exporter && k.domain == s.domain
  }

  function ScopeOf(f: Frame): Scope {
    Scope(f.exporter, f.domain)
  }

  function Part<T>(m: map<TemplateKey, T>, s: Scope): map<TemplateKey, T> {
    map k | k in m && InScope(k, s) :: m[k]
  }

  /** The cache restricted to one scope, its byte counter with it. */
  ghost function Project(c: CacheState, s: Scope): CacheState {
    CacheState(Part(c.entries, s), Part(c.pending, s), c.capEntries, c.capPendingBytes,
      TotalBytes(Part(c.pending, s)) % TWO_32)
  }

  lemma PartSize<T>(m: map<TemplateKey, T>, s: Scope)
    ensures |Part(m, s)| <= |m|
  {
    SubsetSize(Part(m, s).Keys, m.Keys);
  }

  lemma ProjectIsSound(c: CacheState, s: Scope)
    requires Valid(c)
    ensures Valid(Project(c, s)) && Project(c, s).pendingBytes <= c.pendingBytes
    ensures Quiet(c) ==> Quiet(Project(c, s))
  {
    PartSize(c.entries, s);
    TotalBytesPart(Part(c.pending, s), c.pending);
    hide TotalBytes;
    SmallMod(TotalBytes(Part(c.pending, s)));
  }

  // Single operations, inside the scope and outside it.

  lemma PartUpdate<T>(m: map<TemplateKey, T>, k: TemplateKey, v: T, s: Scope)
    ensures Part(m[k := v], s) == if InScope(k, s) then Part(m, s)[k := v] else Part(m, s)
    ensures Part(m - {k}, s) == if InScope(k, s) then Part(m, s) - {k} else Part(m, s)
  {
  }

  lemma UpsertProjects(c: CacheState, k: TemplateKey, e: TemplateEntry, s: Scope)
    requires Valid(c) && |c.entries.Keys + {k}| <= c.capEntries
    ensures Project(Upsert(c, k, e), s) == if InScope(k, s) then Upsert(Project(c, s), k, e) else Project(c, s)
  {
    UpsertFits(c, k, e);
    PartUpdate(c.entries, k, Inherit(c.entries, k, e), s);
    if InScope(k, s) {
      ProjectIsSound(c, s);
      SubsetSize(Part(c.entries, s).Keys + {k}, c.entries.Keys + {k});
      UpsertFits(Project(c, s), k, e);
      assert Inherit(Part(c.entries, s), k, e) == Inherit(c.entries, k, e);
    }
    hide Inherit, Evict, Valid, TotalBytes, Part;
  }

  lemma UseProjects(c: CacheState, k: TemplateKey, now: i64, s: Scope)
    ensures Project(Use(c, k, now), s) == if InScope(k, s) then Use(Project(c, s), k, now) else Project(c, s)
  {
    hide Touch, TotalBytes;
    if k in c.entries {
      PartUpdate(c.entries, k, Touch(c.entries[k], now), s);
    }
  }

  lemma PushProjects(c: CacheState, k: TemplateKey, rec: PendingRecord, s: Scope)
    requires Valid(c) && CanPush(c, rec) && |rec.payload| < TWO_32
    ensures InScope(k, s) ==> CanPush(Project(c, s), rec)
    ensures Project(Push(c, k, rec), s) == if InScope(k, s) then Push(Project(c, s), k, rec) else Project(c, s)
  {
    hide TotalBytes, Valid;
    var p := Part(c.pending, s);
    PushKeepsValid(c, k, rec);
    ProjectIsSound(c, s);
    PartUpdate(c.pending, k, WaitingAt(c.pending, k) + [rec], s);
    if InScope(k, s) {
      PushKeepsValid(Project(c, s), k, rec);
      ProjectBytes(c, s);
      PushIsSmall(Project(c, s), k, rec);
      ProjectBytes(Push(c, k, rec), s);
      PushAddsBytes(p, k, rec);
      assert WaitingAt(p, k) == WaitingAt(c.pending, k);
      assert Part(Push(c, k, rec).pending, s) == p[k := WaitingAt(p, k) + [rec]];
    }
    hide CanPush, Part;
  }

  lemma PushIsSmall(c: CacheState, k: TemplateKey, rec: PendingRecord)
    requires Valid(c) && CanPush(c, rec) && |rec.payload| < TWO_32
    ensures Push(c, k, rec).pendingBytes == c.pendingBytes + |rec.payload|
  {
    PushKeepsValid(c, k, rec);
    hide Valid, CanPush, Push;
  }

  /** In a valid state the projected counter is the plain sum. */
  lemma ProjectBytes(c: CacheState, s: Scope)
    requires Valid(c)
    ensures Project(c, s).pendingBytes == TotalBytes(Part(c.pending, s))
  {
    TotalBytesPart(Part(c.pending, s), c.pending);
    hide TotalBytes;
    SmallMod(TotalBytes(Part(c.pending, s)));
  }

  lemma TakeProjects(c: CacheState, k: TemplateKey, s: Scope)
    requires Valid(c)
    ensures Project(Take(c, k), s) == if InScope(k, s) then Take(Project(c, s), k) else Project(c, s)
  {
    hide TotalBytes, Valid, PayloadBytes;
    var p := Part(c.pending, s);
    PartUpdate(c.pending, k, [], s);
    if InScope(k, s) {
      TakeKeepsValid(c, k);
      ProjectIsSound(c, s);
      TakeKeepsValid(Project(c, s), k);
      ProjectBytes(c, s);
      ProjectBytes(Take(c, k), s);
      assert Part(Take(c, k).pending, s) == p - {k};
      assert WaitingAt(p, k) == WaitingAt(c.pending, k);
      TakenBytes(p, k);
      assert Take(Project(c, s), k).pending == p - {k};
    }
    hide Part;
  }

  lemma TakenBytes(p: Pending, k: TemplateKey)
    ensures TotalBytes(p - {k}) == TotalBytes(p) - PayloadBytes(WaitingAt(p, k))
  {
    if k in p {
      TotalBytesAt(p, k);
    } else {
      assert p - {k} == p;
    }
    hide TotalBytes;
  }

  // The passes.

  lemma {:induction false} LearnProjects(
    c: CacheState, exporter: string, domain: u32, defs: seq<TemplateDef>, now: i64, s: Scope)
    requires Valid(c) && |c.entries.Keys + DefKeys(exporter, domain, defs)| <= c.capEntries
    ensures Project(Learn(c, exporter, domain, defs, now), s)
         == if Scope(exporter, domain) == s then Learn(Project(c, s), exporter, domain, defs, now) else Project(c, s)
    decreases |defs|
  {
    hide Valid, Upsert, Project, DefKeys, Part;
    if defs != [] {
      var k, e := TemplateKey(exporter, domain, defs[0].id), EntryOf(defs[0], now);
      var rest := DefKeys(exporter, domain, defs[1..]);
      DefKeysCons(exporter, domain, defs);
      RoomFor(c.entries.Keys, k, rest, c.capEntries);
      UpsertView(c, k, e, k);
      UpsertProjects(c, k, e, s);
      LearnProjects(Upsert(c, k, e), exporter, domain, defs[1..], now, s);
    }
  }

  lemma ArriveProjects(c: CacheState, f: Frame, w: WireSet, now: i64, fo: bool, s: Scope)
    requires Valid(c) && |w.body| < TWO_16 && NoneRefused(Arrive(c, f, w, now, fo).events)
    ensures var o := Arrive(c, f, w, now, fo);
      if ScopeOf(f) == s
      then Arrive(Project(c, s), f, w, now, fo) == Outcome(Project(o.cache, s), o.events)
      else Project(o.cache, s) == Project(c, s)
  {
    hide Valid, CanPush, DecodeDataSet, MissingRow, TotalBytes, Push;
    if w.id >= 256 {
      var k, rec := KeyFor(f, w.id), RecordFor(f, w.body);
      assert InScope(k, s) <==> ScopeOf(f) == s;
      RefusalShows(c, f, w, now, fo);
      UseProjects(c, k, now, s);
      if CanPush(c, rec) {
        PushProjects(c, k, rec, s);
      }
      hide KeyFor, RecordFor, ScopeOf, NoneRefused;
    }
  }

  lemma {:induction false} ArriveAllProjects(
    c: CacheState, f: Frame, sets: seq<WireSet>, now: i64, fo: bool, s: Scope)
    requires Valid(c) && SmallBodies(sets) && NoneRefused(ArriveAll(c, f, sets, now, fo).events)
    ensures var o := ArriveAll(c, f, sets, now, fo);
      if ScopeOf(f) == s
      then ArriveAll(Project(c, s), f, sets, now, fo) == Outcome(Project(o.cache, s), o.events)
      else Project(o.cache, s) == Project(c, s)
    decreases |sets|
  {
    hide Valid, Arrive, Project, ScopeOf;
    if sets != [] {
      assert sets[0] in sets;
      var one := Arrive(c, f, sets[0], now, fo);
      NoneRefusedSplits(one.events, ArriveAll(one.cache, f, sets[1..], now, fo).events);
      ArriveKeeps(c, f, sets[0], now, fo);
      ArriveProjects(c, f, sets[0], now, fo, s);
      ArriveAllProjects(one.cache, f, sets[1..], now, fo, s);
      hide NoneRefused;
    }
  }

  lemma RetryKeyProjects(c: CacheState, k: TemplateKey, now: i64, fo: bool, s: Scope)
    requires Valid(c)
    ensures var o := RetryKey(c, k, now, fo);
      if InScope(k, s) then RetryKey(Project(c, s), k, now, fo) == Outcome(Project(o.cache, s), o.events)
      else Project(o.cache, s) == Project(c, s)
  {
    hide Valid, TotalBytes, Settle, Touch, Take;
    UseKeepsValid(c, k, now);
    UseProjects(c, k, now, s);
    TakeProjects(Use(c, k, now), k, s);
  }

  /** Retrying a scope's keys commutes with projecting; keys outside the scope must not be due for one inside. */
  lemma {:induction false} RetryInScope(c: CacheState, keys: seq<TemplateKey>, now: i64, fo: bool, s: Scope)
    requires Valid(c) && forall k :: k in keys && k in c.entries ==> InScope(k, s)
    ensures var o := RetryKeys(c, keys, now, fo);
      RetryKeys(Project(c, s), Filter(keys, (k: TemplateKey) => InScope(k, s)), now, fo)
      == Outcome(Project(o.cache, s), o.events)
    decreases |keys|
  {
    hide Valid, Project, RetryKey, InScope;
    if keys != [] {
      var k, rest := keys[0], keys[1..];
      var one := RetryKey(c, k, now, fo);
      RetryKeepsOne(c, k, now, fo);
      RetryKeyProjects(c, k, now, fo, s);
      RetryInScope(one.cache, rest, now, fo, s);
      var kept := Filter(keys, (k: TemplateKey) => InScope(k, s));
      var keptRest := Filter(rest, (k: TemplateKey) => InScope(k, s));
      if InScope(k, s) {
        assert kept == [k] + keptRest && kept[1..] == keptRest;
      } else {
        assert kept == [] + keptRest == keptRest;
        assert one == Outcome(c, []);
        var more := RetryKeys(c, rest, now, fo);
        assert [] + more.events == more.events;
      }
    }
  }

  lemma RetryKeepsOne(c: CacheState, k: TemplateKey, now: i64, fo: bool)
    requires Valid(c)
    ensures Valid(RetryKey(c, k, now, fo).cache)
    ensures RetryKey(c, k, now, fo).cache.entries.Keys == c.entries.Keys
    ensures k !in c.entries ==> RetryKey(c, k, now, fo) == Outcome(c, [])
  {
    UseKeepsValid(c, k, now);
    TakeKeepsValid(Use(c, k, now), k);
    hide Valid, Settle, Touch, PayloadBytes;
  }

  lemma {:induction false} RetryOutOfScope(c: CacheState, keys: seq<TemplateKey>, now: i64, fo: bool, s: Scope)
    requires Valid(c) && forall k :: k in keys && k in c.entries ==> !InScope(k, s)
    ensures Project(RetryKeys(c, keys, now, fo).cache, s) == Project(c, s)
    decreases |keys|
  {
    hide Valid, Project, RetryKey, InScope;
    if keys != [] {
      RetryKeepsOne(c, keys[0], now, fo);
      RetryKeyProjects(c, keys[0], now, fo, s);
      RetryOutOfScope(RetryKey(c, keys[0], now, fo).cache, keys[1..], now, fo, s);
    }
  }

  // One datagram.

  /** After both passes, a waiting key with a known template belongs to the datagram's own scope. */
  lemma DueKeysAreOwn(ext: Externals, c: CacheState, i: Input, k: TemplateKey)
    requires Valid(c) && Quiet(c) && InputFrame(i).Some?
    ensures var o := DecodeByVersion(ext, c, i);
      k in o.cache.pending && k in o.cache.entries ==> InScope(k, ScopeOf(InputFrame(i).value))
  {
    var f, fo := InputFrame(i).value, i.opts.mode.DropsOptions();
    var defs := DefsOf(ext, f.version, f.sets);
    var learned := Learn(c, f.exporter, f.domain, defs, i.opts.now);
    ByVersion(ext, c, i);
    FrameBodiesSmall(i);
    LearnKeeps(c, f.exporter, f.domain, defs, i.opts.now);
    ArriveAllKeeps(learned, f, f.sets, i.opts.now, fo);
    hide Valid, InputFrame, DecodeByVersion, Learn, ArriveAll, DefsOf, Probe;
  }

  /** The first half of a datagram in projection. */
  lemma PassesProject(ext: Externals, c: CacheState, i: Input, s: Scope)
    requires Valid(c) && Quiet(c) && InputFrame(i).Some? && FitsCaps(ext, c, Datagram(i))
    ensures var o := DecodeByVersion(ext, c, i);
      && Valid(o.cache)
      && if ScopeOf(InputFrame(i).value) == s
         then DecodeByVersion(ext, Project(c, s), i) == Outcome(Project(o.cache, s), o.events)
         else Project(o.cache, s) == Project(c, s)
  {
    hide Valid, Quiet, Probe, DefsOf, Project, NoneRefused, Retry;
    var f, fo := InputFrame(i).value, i.opts.mode.DropsOptions();
    var defs := DefsOf(ext, f.version, f.sets);
    var learned := Learn(c, f.exporter, f.domain, defs, i.opts.now);
    var o1, o := DecodeByVersion(ext, c, i), DecodeDatagram(ext, c, i);
    ByVersion(ext, c, i);
    ByVersion(ext, Project(c, s), i);
    FrameBodiesSmall(i);
    hide InputFrame, DecodeByVersion, Learn, ArriveAll;
    LearnKeeps(c, f.exporter, f.domain, defs, i.opts.now);
    NoneRefusedSplits(o1.events, o.events[|o1.events|..]) by {
      assert o.events == o1.events + o.events[|o1.events|..];
    }
    LearnProjects(c, f.exporter, f.domain, defs, i.opts.now, s);
    ArriveAllKeeps(learned, f, f.sets, i.opts.now, fo);
    ArriveAllProjects(learned, f, f.sets, i.opts.now, fo, s);
  }

  lemma RetryAll(ext: Externals, c: CacheState, i: Input)
    requires Probe(i.data) in {Some(NetflowV9), Some(Ipfix)}
    ensures var o := DecodeByVersion(ext, c, i);
      var r := Retry(o.cache, i.opts.now, i.opts.mode.DropsOptions());
      DecodeDatagram(ext, c, i) == Outcome(r.cache, o.events + r.events)
  {
    var o := DecodeByVersion(ext, c, i);
    RetryOfNothing(o.cache, i.opts.now, i.opts.mode.DropsOptions());
    assert o.events + [] == o.events;
    hide DecodeByVersion, Probe, RetryKeys;
  }

  ghost predicate DueIn(c: CacheState, own: Scope) {
    forall k :: k in c.pending && k in c.entries ==> InScope(k, own)
  }

  lemma RetryOwn(c: CacheState, now: i64, fo: bool, s: Scope)
    requires Valid(c) && DueIn(c, s)
    ensures var r := Retry(c, now, fo); Retry(Project(c, s), now, fo) == Outcome(Project(r.cache, s), r.events)
  {
    hide Valid, RetryKeys, InScope;
    var keys := SortedKeys(c.pending.Keys);
    assert forall k :: k in keys ==> k in c.pending.Keys;
    RetryInScope(c, keys, now, fo, s);
    assert Part(c.pending, s).Keys == set k | k in c.pending.Keys && InScope(k, s);
    FilterSorted(c.pending.Keys, (k: TemplateKey) => InScope(k, s), Part(c.pending, s).Keys);
  }

  lemma RetryProjects(c: CacheState, now: i64, fo: bool, s: Scope, own: Scope)
    requires Valid(c) && DueIn(c, own)
    ensures var r := Retry(c, now, fo);
      if own == s then Retry(Project(c, s), now, fo) == Outcome(Project(r.cache, s), r.events)
      else Project(r.cache, s) == Project(c, s)
  {
    hide Valid, RetryKeys, InScope, Project;
    if own == s {
      RetryOwn(c, now, fo, s);
    } else {
      var keys := SortedKeys(c.pending.Keys);
      assert forall k :: k in keys ==> k in c.pending.Keys;
      forall k | k in keys && k in c.entries ensures !InScope(k, s) {
        ScopesDisjoint(k, s, own);
      }
      RetryOutOfScope(c, keys, now, fo, s);
    }
  }

  /**
   * A datagram of the scope emits the same events, in the same order, from the projected cache; a datagram of any
   * other scope leaves the projection untouched.
   */
  lemma FrameProjects(ext: Externals, c: CacheState, i: Input, s: Scope)
    requires Valid(c) && Quiet(c) && InputFrame(i).Some? && FitsCaps(ext, c, Datagram(i))
    ensures var o := DecodeDatagram(ext, c, i);
      if ScopeOf(InputFrame(i).value) == s
      then DecodeDatagram(ext, Project(c, s), i) == Outcome(Project(o.cache, s), o.events)
      else Project(o.cache, s) == Project(c, s)
  {
    hide Valid, Quiet, Retry, InScope, ScopeOf, Project, FitsCaps, DecodeByVersion, DecodeDatagram, InputFrame, Probe;
    var o1 := DecodeByVersion(ext, c, i);
    var own := ScopeOf(InputFrame(i).value);
    PassesProject(ext, c, i, s);
    ByVersion(ext, c, i);
    RetryAll(ext, c, i);
    RetryAll(ext, Project(c, s), i);
    assert DueIn(o1.cache, own) by {
      forall k | k in o1.cache.pending && k in o1.cache.entries ensures InScope(k, own) {
        DueKeysAreOwn(ext, c, i, k);
      }
    }
    RetryProjects(o1.cache, i.opts.now, i.opts.mode.DropsOptions(), s, own);
  }

  lemma ScopesDisjoint(k: TemplateKey, s: Scope, t: Scope)
    requires s != t && InScope(k, t)
    ensures !InScope(k, s)
  {
  }

  // Runs.

  /** A datagram without usable Sets neither reads nor changes a quiet cache. */
  lemma UnframedIsStateless(ext: Externals, c: CacheState, i: Input)
    requires Valid(c) && Quiet(c) && InputFrame(i).None?
    ensures DecodeDatagram(ext, c, i).cache == c
    ensures DecodeDatagram(ext, c, i).events == DecodeByVersion(ext, EmptyCache(), i).events
  {
    hide Probe;
    ByVersion(ext, c, i);
    hide DecodeByVersion, InputFrame;
    var o := DecodeByVersion(ext, c, i);
    var keys := SortedKeys(c.pending.Keys);
    assert forall k :: k in keys ==> k in c.pending.Keys;
    RetryNothingDue(c, keys, i.opts.now, i.opts.mode.DropsOptions());
    assert o.events + [] == o.events;
    hide RetryKeys, Valid;
  }

  lemma {:induction false} RetryNothingDue(c: CacheState, keys: seq<TemplateKey>, now: i64, fo: bool)
    requires forall k :: k in keys ==> k !in c.entries
    ensures RetryKeys(c, keys, now, fo) == Outcome(c, [])
    decreases |keys|
  {
    if keys != [] {
      RetryNothingDue(c, keys[1..], now, fo);
      assert RetryKey(c, keys[0], now, fo) == Outcome(c, []);
      hide RetryKey;
    }
  }

  /** The steps that concern a scope: its own v9 and IPFIX datagrams, and flushes. */
  predicate Own(s: Step, scope: Scope) {
    s.Flush? || (s.Datagram? && InputFrame(s.input).Some? && ScopeOf(InputFrame(s.input).value) == scope)
  }

  function OwnSteps(steps: seq<Step>, scope: Scope): seq<Step> {
    if steps == [] then []
    else (if Own(steps[0], scope) then [steps[0]] else []) + OwnSteps(steps[1..], scope)
  }

  predicate EventIn(e: Event, scope: Scope) {
    e.Settled? && InScope(e.item.key, scope)
  }

  function ScopeEvents(events: seq<Event>, scope: Scope): seq<Event> {
    if events == [] then []
    else (if EventIn(events[0], scope) then [events[0]] else []) + ScopeEvents(events[1..], scope)
  }

  /** What a step emits for a scope: all of its own datagram's events, and its share of a flush. */
  ghost function Share(ext: Externals, c: CacheState, s: Step, scope: Scope): seq<Event> {
    if s.Flush? then ScopeEvents(DoStep(ext, c, s).events, scope) else DoStep(ext, c, s).events
  }

  /** The output of a run, step by step, for one scope. */
  ghost function OutputFor(ext: Externals, c: CacheState, steps: seq<Step>, scope: Scope): seq<seq<Event>>
    decreases |steps|
  {
    if steps == [] then []
    else
      (if Own(steps[0], scope) then [Share(ext, c, steps[0], scope)] else [])
      + OutputFor(ext, DoStep(ext, c, steps[0]).cache, steps[1..], scope)
  }

  lemma {:induction false} ScopeEventsConcat(a: seq<Event>, b: seq<Event>, scope: Scope)
    ensures ScopeEvents(a + b, scope) == ScopeEvents(a, scope) + ScopeEvents(b, scope)
  {
    if a == [] {
      assert a + b == b;
    } else {
      assert (a + b)[1..] == a[1..] + b;
      ScopeEventsConcat(a[1..], b, scope);
    }
  }

  lemma {:induction false} FlushRecordsScope(k: TemplateKey, recs: seq<PendingRecord>, v: Version, scope: Scope)
    ensures ScopeEvents(FlushRecords(k, recs, v), scope) == if InScope(k, scope) then FlushRecords(k, recs, v) else []
  {
    hide MissingRow;
    if recs != [] {
      FlushRecordsScope(k, recs[1..], v, scope);
      var es := FlushRecords(k, recs, v);
      assert es[1..] == FlushRecords(k, recs[1..], v);
    }
  }

  lemma {:induction false} FlushPairsScope(p: Pending, ks: seq<TemplateKey>, scope: Scope)
    requires forall k :: k in ks ==> k in p
    ensures var own := Filter(ks, (k: TemplateKey) => InScope(k, scope));
      ScopeEvents(FlushPairs(PairUp(p, ks)), scope) == FlushPairs(PairUp(Part(p, scope), own))
  {
    hide InScope, FlushRecords, FlushVersion;
    if ks != [] {
      var own := Filter(ks, (k: TemplateKey) => InScope(k, scope));
      var ownRest := Filter(ks[1..], (k: TemplateKey) => InScope(k, scope));
      var first := FlushRecords(ks[0], p[ks[0]], FlushVersion(p[ks[0]]));
      assert PairUp(p, ks)[1..] == PairUp(p, ks[1..]);
      FlushPairsScope(p, ks[1..], scope);
      FlushRecordsScope(ks[0], p[ks[0]], FlushVersion(p[ks[0]]), scope);
      ScopeEventsConcat(first, FlushPairs(PairUp(p, ks[1..])), scope);
      hide ScopeEvents;
      if InScope(ks[0], scope) {
        assert own[1..] == ownRest && own[0] == ks[0];
        assert PairUp(Part(p, scope), own)[1..] == PairUp(Part(p, scope), ownRest);
      } else {
        assert own == ownRest;
      }
    }
  }

  lemma FlushProjects(c: CacheState, scope: Scope)
    requires Valid(c)
    ensures var o := FlushPending(c);
      && Project(o.cache, scope) == FlushPending(Project(c, scope)).cache
      && ScopeEvents(o.events, scope) == FlushPending(Project(c, scope)).events
  {
    DrainProjects(c, scope);
    hide FlushPairs, TotalBytes, InScope, Drain, ScopeEvents, SortedKeys, PairUp;
    var ks := SortedKeys(c.pending.Keys);
    assert forall k :: k in ks ==> k in c.pending.Keys;
    FlushPairsScope(c.pending, ks, scope);
    assert Part(c.pending, scope).Keys == set k | k in c.pending.Keys && InScope(k, scope);
    FilterSorted(c.pending.Keys, (k: TemplateKey) => InScope(k, scope), Part(c.pending, scope).Keys);
    hide Part;
  }

  lemma DrainProjects(c: CacheState, scope: Scope)
    ensures Project(Drain(c), scope) == Drain(Project(c, scope))
  {
    NoBytes();
    assert Part(Drain(c).pending, scope) == map[];
    hide TotalBytes;
  }

  /** The flush of a projected cache is entirely in scope. */
  lemma {:induction false} ProjectedFlushIsOwn(p: Pending, ks: seq<TemplateKey>, scope: Scope)
    requires forall k :: k in ks ==> k in p && InScope(k, scope)
    ensures ScopeEvents(FlushPairs(PairUp(p, ks)), scope) == FlushPairs(PairUp(p, ks))
  {
    hide InScope, FlushRecords, FlushVersion;
    if ks != [] {
      var first := FlushRecords(ks[0], p[ks[0]], FlushVersion(p[ks[0]]));
      assert PairUp(p, ks)[1..] == PairUp(p, ks[1..]);
      FlushRecordsScope(ks[0], p[ks[0]], FlushVersion(p[ks[0]]), scope);
      ProjectedFlushIsOwn(p, ks[1..], scope);
      ScopeEventsConcat(first, FlushPairs(PairUp(p, ks[1..])), scope);
      hide ScopeEvents;
    }
  }

  lemma OwnFlushShare(ext: Externals, c: CacheState, scope: Scope)
    requires Valid(c)
    ensures Share(ext, Project(c, scope), Flush, scope) == Share(ext, c, Flush, scope)
    ensures DoStep(ext, Project(c, scope), Flush).cache == Project(DoStep(ext, c, Flush).cache, scope)
  {
    FlushProjects(c, scope);
    var p := Part(c.pending, scope);
    assert forall k :: k in SortedKeys(p.Keys) ==> k in p.Keys;
    ProjectedFlushIsOwn(p, SortedKeys(p.Keys), scope);
    hide ScopeEvents, FlushPairs, TotalBytes;
  }

  lemma StepProjects(ext: Externals, c: CacheState, s: Step, scope: Scope)
    requires Valid(c) && Quiet(c) && FitsCaps(ext, c, s)
    ensures var next := Project(DoStep(ext, c, s).cache, scope);
      if Own(s, scope)
      then DoStep(ext, Project(c, scope), s).cache == next
        && Share(ext, Project(c, scope), s, scope) == Share(ext, c, s, scope)
      else next == Project(c, scope)
  {
    hide DecodeDatagram, FlushPending, FromDto, ToDto, Project, Valid, FitsCaps, ScopeOf;
    match s
    case Datagram(i) =>
      if InputFrame(i).Some? {
        FrameProjects(ext, c, i, scope);
      } else {
        UnframedIsStateless(ext, c, i);
      }
      hide InputFrame, Quiet;
    case Rehydrate =>
      RehydrateIdentity(c);
    case Flush =>
      OwnFlushShare(ext, c, scope);
      hide DoStep, Share;
  }

  /**
   * Non-interference over whole runs. In a run that mixes any exporters and domains and reaches neither cap, every
   * v9 or IPFIX datagram of one scope emits, event for event and in order, what it emits when only that scope's
   * datagrams are run, and the same holds for the scope's share of each flush.
   */
  lemma {:induction false} NonInterference(ext: Externals, c: CacheState, steps: seq<Step>, scope: Scope)
    requires Valid(c) && Quiet(c) && RunFitsCaps(ext, c, steps)
    ensures OutputFor(ext, c, steps, scope) == OutputFor(ext, Project(c, scope), OwnSteps(steps, scope), scope)
    ensures Project(Run(ext, c, steps).cache, scope) == Run(ext, Project(c, scope), OwnSteps(steps, scope)).cache
    decreases |steps|
  {
    hide Valid, Quiet, FitsCaps, DoStep, Project, Own, Share;
    if steps != [] {
      var s := steps[0];
      StepProjects(ext, c, s, scope);
      StepKeeps(ext, c, s);
      NonInterference(ext, DoStep(ext, c, s).cache, steps[1..], scope);
      if Own(s, scope) {
        assert OwnSteps(steps, scope)[1..] == OwnSteps(steps[1..], scope);
      } else {
        assert OwnSteps(steps, scope) == OwnSteps(steps[1..], scope);
        assert OutputFor(ext, c, steps, scope) == OutputFor(ext, DoStep(ext, c, s).cache, steps[1..], scope);
      }
    }
  }

  /** From a cold start, the isolated run starts cold too. */
  lemma EmptyProjects(scope: Scope)
    ensures Project(EmptyCache(), scope) == EmptyCache()
  {
    NoBytes();
    assert Part(EmptyCache().pending, scope) == map[];
    hide TotalBytes;
  }
}

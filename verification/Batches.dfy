/** Externalized scan state: each batch loads the cache from storage, runs, and stores it back. */
module Batches {
  import opened Wire
  import opened Flow
  import opened CacheSpec
  import opened Scan
  import opened Invariants
  import opened KeyOrder
  import opened KeyView
  import opened Projection

  /** The two keys of the store a scan uses: its own cache and the process-wide projection. */
  datatype Store = Store(scan: Token, global: Token)

  /** A worker may have no storage at all; then nothing is kept. */
  type Storage = Option<Store>

  ghost function Load(storage: Storage): CacheState {
    if storage.None? then EmptyCache() else FromToken(storage.value.scan)
  }

  /** Storing a scan's cache also mirrors its entries, not its buffer, into the projection. */
  ghost function Save(storage: Storage, c: CacheState): Storage {
    if storage.None? then None
    else Some(Store(ToToken(c), ToToken(MirrorAll(FromToken(storage.value.global), c.entries))))
  }

  datatype BatchOutcome = BatchOutcome(storage: Storage, events: seq<Event>)

  ghost function RunBatch(ext: Externals, storage: Storage, batch: seq<Step>): BatchOutcome {
    var o := Run(ext, Load(storage), batch);
    BatchOutcome(Save(storage, o.cache), o.events)
  }

  ghost function RunBatches(ext: Externals, storage: Storage, batches: seq<seq<Step>>): BatchOutcome
    decreases |batches|
  {
    if batches == [] then BatchOutcome(storage, [])
    else
      var one := RunBatch(ext, storage, batches[0]);
      var more := RunBatches(ext, one.storage, batches[1..]);
      BatchOutcome(more.storage, one.events + more.events)
  }

  function Flatten(batches: seq<seq<Step>>): seq<Step> {
    if batches == [] then [] else batches[0] + Flatten(batches[1..])
  }

  lemma {:induction false} RunConcat(ext: Externals, c: CacheState, a: seq<Step>, b: seq<Step>)
    ensures var first := Run(ext, c, a);
      var second := Run(ext, first.cache, b);
      Run(ext, c, a + b) == Outcome(second.cache, first.events + second.events)
    decreases |a|
  {
    hide DoStep;
    if a == [] {
      assert a + b == b;
    } else {
      assert (a + b)[1..] == a[1..] + b;
      var one := DoStep(ext, c, a[0]);
      RunConcat(ext, one.cache, a[1..], b);
      var x, y := Run(ext, one.cache, a[1..]), Run(ext, Run(ext, one.cache, a[1..]).cache, b);
      assert one.events + (x.events + y.events) == one.events + x.events + y.events;
    }
  }

  lemma SavedLoads(storage: Storage, c: CacheState)
    requires storage.Some? && Valid(c)
    ensures Save(storage, c).Some? && Load(Save(storage, c)) == c
  {
    RehydrateIdentity(c);
    hide FromDto, ToDto, MirrorAll, Valid;
  }

  /**
   * What the stored projection loads to. A mirrored key that is there has the scan's layout and last-seen time; any
   * other is as before; the buffer is as before. If the projection was sound and has room for both, it loads to
   * exactly the keys of both, and a key it already held keeps its use count and first-seen time.
   */
  lemma StoredProjection(storage: Storage, c: CacheState, key: TemplateKey)
    requires storage.Some?
    ensures Save(storage, c).Some?
    ensures var before, after := FromToken(storage.value.global), FromToken(Save(storage, c).value.global);
      && after.pending == before.pending && after.capEntries == before.capEntries
      && (key in after.entries ==> if key in c.entries then Shows(after.entries[key], c.entries[key])
                                   else key in before.entries && after.entries[key] == before.entries[key])
      && (Valid(before) && |before.entries.Keys + c.entries.Keys| <= before.capEntries ==>
            && after.entries.Keys == before.entries.Keys + c.entries.Keys
            && (key in before.entries ==>
                  after.entries[key].useCount == before.entries[key].useCount
                  && after.entries[key].firstSeen == before.entries[key].firstSeen)
            && (key in c.entries && key !in before.entries ==> after.entries[key] == c.entries[key]))
  {
    hide Mirror, Valid;
    var before, keys := FromToken(storage.value.global), SortedKeys(c.entries.Keys);
    var mirrored := MirrorAll(before, c.entries);
    LoadsEntries(mirrored);
    MirrorKeepsBuffer(before, c.entries, keys);
    MirroredKey(before, c.entries, key);
    hide FromDto, ToDto, Inherit;
  }

  /** An entry with the layout and last-seen time of another. */
  predicate Shows(e: TemplateEntry, scan: TemplateEntry) {
    (e.kind, e.fields, e.scopeFieldCount, e.lastSeen) == (scan.kind, scan.fields, scan.scopeFieldCount, scan.lastSeen)
  }

  lemma LoadsEntries(c: CacheState)
    ensures var d := FromToken(ToToken(c));
      d.entries == c.entries && d.pending == c.pending && d.capEntries == c.capEntries
  {
    CollectPairs(c.entries);
    CollectPairs(c.pending);
    hide Collect, TotalBytes;
  }

  lemma MirroredKey(before: CacheState, entries: Entries, key: TemplateKey)
    ensures var m := MirrorAll(before, entries).entries;
      && (key in m && key !in entries ==> key in before.entries && m[key] == before.entries[key])
      && (key in m && key in entries ==>
            m[key] == entries[key] || (key in before.entries && m[key] == Inherit(before.entries, key, entries[key])))
      && (Valid(before) && |before.entries.Keys + entries.Keys| <= before.capEntries ==>
            && m.Keys == before.entries.Keys + entries.Keys
            && (key in entries ==> m[key] == Inherit(before.entries, key, entries[key])))
  {
    hide Mirror, Valid, Inherit, SortedKeys;
    var keys := SortedKeys(entries.Keys);
    SortedIncreasing(entries.Keys);
    if key in entries {
      var i :| 0 <= i < |keys| && keys[i] == key;
      MirrorFreezesStatistics(before, entries, keys, i);
      MirroredInRoom(before, entries, keys, i);
      FreshInherits(before.entries, key, entries[key]);
    } else {
      MirrorLeaves(before, entries, keys, key);
      MirroredInRoom(before, entries, keys, |keys|);
    }
  }

  lemma FreshInherits(m: Entries, key: TemplateKey, e: TemplateEntry)
    ensures key !in m ==> Inherit(m, key, e) == e
  {
  }

  /** With room, nothing is evicted up to any turn. */
  lemma MirroredInRoom(before: CacheState, entries: Entries, keys: seq<TemplateKey>, i: nat)
    requires Increasing(keys) && i <= |keys| && forall k :: k in keys <==> k in entries.Keys
    ensures Valid(before) && |before.entries.Keys + entries.Keys| <= before.capEntries ==>
      && Mirror(before, entries, keys).entries.Keys == before.entries.Keys + entries.Keys
      && before.entries.Keys <= Mirror(before, entries, keys[..i]).entries.Keys
  {
    hide Mirror, Valid, Increasing;
    if Valid(before) && |before.entries.Keys + entries.Keys| <= before.capEntries {
      assert KeySet(keys) == entries.Keys;
      MirrorWithRoom(before, entries, keys);
      SubsetSize(before.entries.Keys + KeySet(keys[..i]), before.entries.Keys + entries.Keys);
      MirrorWithRoom(before, entries, keys[..i]);
    }
  }

  lemma {:induction false} BatchesFrom(ext: Externals, storage: Storage, batches: seq<seq<Step>>)
    requires storage.Some? && Valid(Load(storage)) && Quiet(Load(storage))
    ensures var o := RunBatches(ext, storage, batches);
      o.storage.Some? && Outcome(Load(o.storage), o.events) == Run(ext, Load(storage), Flatten(batches))
    decreases |batches|
  {
    hide Valid, Quiet, Run, Load, Save;
    if batches == [] {
      EmptyRun(ext, Load(storage));
    } else {
      var c := Load(storage);
      var one := RunBatch(ext, storage, batches[0]);
      RunKeeps(ext, c, batches[0]);
      SavedLoads(storage, Run(ext, c, batches[0]).cache);
      BatchesFrom(ext, one.storage, batches[1..]);
      RunConcat(ext, c, batches[0], Flatten(batches[1..]));
    }
  }

  lemma EmptyRun(ext: Externals, c: CacheState)
    ensures Run(ext, c, []) == Outcome(c, [])
  {
  }

  /**
   * Batch transparency: with storage present, however a scan is cut into batches, empty ones included, with the
   * cache serialized, stored and rebuilt at every cut, it emits the same events in the same order and ends with the
   * same cache, byte counter included, as one uninterrupted run from a cold start. What the projection holds, and
   * what is mirrored into it, makes no difference, and a corrupt token is a cold start.
   */
  lemma BatchingIsInvisible(ext: Externals, cold: Token, global: Token, batches: seq<seq<Step>>)
    requires !cold.Whole?
    ensures var o := RunBatches(ext, Some(Store(cold, global)), batches);
      o.storage.Some? && Outcome(Load(o.storage), o.events) == Run(ext, EmptyCache(), Flatten(batches))
  {
    EmptyIsValid();
    hide Run, RunBatches, Flatten, Valid, Quiet, EmptyCache;
    BatchesFrom(ext, Some(Store(cold, global)), batches);
  }

  /** The events of batches that all start cold. */
  ghost function ColdEvents(ext: Externals, batches: seq<seq<Step>>): seq<Event> {
    if batches == [] then [] else Run(ext, EmptyCache(), batches[0]).events + ColdEvents(ext, batches[1..])
  }

  /** Without storage every batch starts cold and nothing is kept. */
  lemma {:induction false} WithoutStorage(ext: Externals, batches: seq<seq<Step>>)
    ensures RunBatches(ext, None, batches) == BatchOutcome(None, ColdEvents(ext, batches))
  {
    hide Run, EmptyCache;
    if batches != [] {
      WithoutStorage(ext, batches[1..]);
    }
  }
}

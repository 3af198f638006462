/** The process-wide projection: every stored scan cache is mirrored into one global cache. */
module Projection {
  import opened Flow
  import opened KeyOrder
  import opened CacheSpec
  import opened KeyView

  /** Mirroring a scan's entries into the global cache, in key order. */
  ghost function Mirror(global: CacheState, entries: Entries, keys: seq<TemplateKey>): CacheState
    requires forall k :: k in keys ==> k in entries
    decreases |keys|
  {
    if keys == [] then global else Mirror(Upsert(global, keys[0], entries[keys[0]]), entries, keys[1..])
  }

  ghost function MirrorAll(global: CacheState, entries: Entries): CacheState {
    Mirror(global, entries, SortedKeys(entries.Keys))
  }

  /** Mirroring touches neither the global buffer nor the caps. */
  lemma {:induction false} MirrorKeepsBuffer(global: CacheState, entries: Entries, keys: seq<TemplateKey>)
    requires forall k :: k in keys ==> k in entries
    ensures Mirror(global, entries, keys) == global.(entries := Mirror(global, entries, keys).entries)
    decreases |keys|
  {
    hide Evict, Inherit;
    if keys != [] {
      MirrorKeepsBuffer(Upsert(global, keys[0], entries[keys[0]]), entries, keys[1..]);
    }
  }

  lemma UpsertAt(c: CacheState, k: TemplateKey, e: TemplateEntry, key: TemplateKey)
    ensures var m := Upsert(c, k, e).entries;
      && (key in m ==> m[key] == if key == k then Inherit(c.entries, k, e) else c.entries[key])
      && (key in m ==> key == k || key in c.entries)
  {
    hide Evict, Inherit;
  }

  /** A key the scan does not have is left as it was, or evicted. */
  lemma {:induction false} MirrorLeaves(
    global: CacheState, entries: Entries, keys: seq<TemplateKey>, key: TemplateKey)
    requires key !in keys && forall k :: k in keys ==> k in entries
    ensures var m := Mirror(global, entries, keys).entries;
      key in m ==> key in global.entries && m[key] == global.entries[key]
    decreases |keys|
  {
    if keys != [] {
      UpsertAt(global, keys[0], entries[keys[0]], key);
      MirrorLeaves(Upsert(global, keys[0], entries[keys[0]]), entries, keys[1..], key);
      hide Upsert, Inherit;
    }
  }

  /**
   * Whatever the caps and the state of the projection, a mirrored key that is still there has the scan's layout and
   * last-seen time. Its use count and first-seen time are the projection's own, frozen since the key was first
   * mirrored, exactly when the projection still held the key at its turn; otherwise they are the scan's.
   */
  lemma {:induction false} MirrorFreezesStatistics(
    global: CacheState, entries: Entries, keys: seq<TemplateKey>, i: nat)
    requires i < |keys| && Increasing(keys) && forall k :: k in keys ==> k in entries
    ensures var key := keys[i];
      var turn, m := Mirror(global, entries, keys[..i]).entries, Mirror(global, entries, keys).entries;
      && (key in turn ==> key in global.entries)
      && (key in m ==> m[key] == if key in turn then Inherit(global.entries, key, entries[key]) else entries[key])
    decreases |keys|
  {
    hide KeyLess, Upsert;
    var k, rest := keys[0], keys[1..];
    var once := Upsert(global, k, entries[k]);
    KeyTotal(k, k);
    assert k !in rest;
    UpsertAt(global, k, entries[k], keys[i]);
    if i == 0 {
      MirrorLeaves(once, entries, rest, k);
    } else {
      MirrorFreezesStatistics(once, entries, rest, i - 1);
      assert rest[..i - 1] == keys[..i][1..];
    }
  }

  ghost function KeySet(keys: seq<TemplateKey>): set<TemplateKey> {
    set k | k in keys
  }

  lemma NoKeys()
    ensures KeySet([]) == {}
  {
  }

  lemma KeySetCons(keys: seq<TemplateKey>)
    requires keys != []
    ensures KeySet(keys) == {keys[0]} + KeySet(keys[1..])
  {
    assert keys == [keys[0]] + keys[1..];
  }

  lemma MirrorOne(global: CacheState, k: TemplateKey, e: TemplateEntry)
    requires Valid(global) && |global.entries.Keys + {k}| <= global.capEntries
    ensures var once := Upsert(global, k, e);
      Valid(once) && once.entries.Keys == global.entries.Keys + {k} && once.capEntries == global.capEntries
  {
    UpsertView(global, k, e, k);
    hide Valid, Upsert;
  }

  /** With room for both, nothing is evicted, so every key the projection held keeps its statistics for ever. */
  lemma {:induction false} MirrorWithRoom(global: CacheState, entries: Entries, keys: seq<TemplateKey>)
    requires Valid(global) && forall k :: k in keys ==> k in entries
    requires |global.entries.Keys + KeySet(keys)| <= global.capEntries
    ensures Mirror(global, entries, keys).entries.Keys == global.entries.Keys + KeySet(keys)
    ensures Valid(Mirror(global, entries, keys))
    decreases |keys|
  {
    hide Valid, Upsert, KeySet;
    if keys == [] {
      NoKeys();
    } else {
      var k, rest := keys[0], KeySet(keys[1..]);
      var held, once := global.entries.Keys, Upsert(global, k, entries[k]);
      KeySetCons(keys);
      RoomFor(held, k, rest, global.capEntries);
      MirrorOne(global, k, entries[k]);
      MirrorWithRoom(once, entries, keys[1..]);
    }
  }
}

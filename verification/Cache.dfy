/** The template cache as the decoder updates it in place, each method proved against its specification. */
module Cache {
  import opened Wire
  import opened Flow
  import opened KeyOrder
  import opened CacheSpec

  ghost predicate OldestAmong(m: Entries, v: TemplateKey, ks: seq<TemplateKey>) {
    v in m && v in ks && forall k :: k in ks && k != v ==> k in m && Older(m, v, k)
  }

  lemma NextVictim(m: Entries, v: TemplateKey, ks: seq<TemplateKey>, i: nat)
    requires 0 < i < |ks| && Increasing(ks) && ks[i] in m && OldestAmong(m, v, ks[..i])
    ensures OldestAmong(m, if m[ks[i]].lastSeen < m[v].lastSeen then ks[i] else v, ks[..i + 1])
  {
    assert ks[..i + 1] == ks[..i] + [ks[i]];
    assert KeyLess(v, ks[i]) by {
      var j :| 0 <= j < i && ks[j] == v;
    }
    hide KeyLess;
  }

  method SumPayloads(recs: seq<PendingRecord>) returns (sum: nat)
    ensures sum == PayloadBytes(recs)
  {
    sum := 0;
    for i := 0 to |recs|
      invariant sum == PayloadBytes(recs[..i])
    {
      assert recs[..i + 1] == recs[..i] + [recs[i]];
      PayloadBytesConcat(recs[..i], [recs[i]]);
      assert PayloadBytes([recs[i]]) == |recs[i].payload| + PayloadBytes([]);
      sum := sum + |recs[i].payload|;
    }
    assert recs[..|recs|] == recs;
  }

  lemma RecountStep(p: Pending, k: TemplateKey)
    requires k in p
    ensures TotalBytes(p) == PayloadBytes(p[k]) + TotalBytes(p - {k})
    ensures |p - {k}| < |p| && (p - {k}).Keys <= p.Keys
  {
    TotalBytesAt(p, k);
    assert (p - {k}).Keys == p.Keys - {k};
  }

  class TemplateCache {
    var entries: Entries
    var pending: Pending
    var capEntries: u32
    var capPendingBytes: u32
    var pendingBytes: u32

    ghost function Model(): CacheState
      reads this
    {
      CacheState(entries, pending, capEntries, capPendingBytes, pendingBytes)
    }

    constructor ()
      ensures Model() == EmptyCache()
      ensures entries == map[] && pending == map[] && pendingBytes == 0
      ensures capEntries == 100_000 && capPendingBytes == 4_194_304
    {
      entries, pending := map[], map[];
      capEntries, capPendingBytes, pendingBytes := DEFAULT_CAP_ENTRIES, DEFAULT_CAP_PENDING_BYTES, 0;
    }

    method Insert(key: TemplateKey, entry: TemplateEntry)
      modifies this`entries
      ensures Model() == Upsert(old(Model()), key, entry)
    {
      var e := entry;
      if key in entries {
        var previous := entries[key];
        e := e.(firstSeen := previous.firstSeen);
        e := e.(useCount := previous.useCount);
      }
      entries := entries[key := e];
      EvictIfNeeded();
    }

    /** The first key, in map order, with the smallest last-seen time. */
    method FindVictim() returns (victim: TemplateKey)
      requires entries != map[]
      ensures IsOldest(entries, victim)
    {
      hide KeyLess, Older;
      var keys := ListKeys(entries.Keys);
      SortedIncreasing(entries.Keys);
      assert forall k :: k in keys <==> k in entries;
      assert keys != [] by {
        var k :| k in entries;
        assert k in keys;
      }
      victim := keys[0];
      for i := 1 to |keys|
        invariant OldestAmong(entries, victim, keys[..i])
      {
        NextVictim(entries, victim, keys, i);
        if entries[keys[i]].lastSeen < entries[victim].lastSeen {
          victim := keys[i];
        }
      }
      assert keys[..|keys|] == keys;
    }

    method EvictIfNeeded()
      modifies this`entries
      ensures entries == Evict(old(entries), capEntries)
    {
      while |entries| % TWO_32 > capEntries
        invariant Evict(entries, capEntries) == Evict(old(entries), capEntries)
        decreases |entries|
      {
        if entries == map[] {
          break;
        }
        var victim := FindVictim();
        OldestUnique(entries, victim, Oldest(entries));
        assert (entries - {victim}).Keys == entries.Keys - {victim};
        entries := entries - {victim};
      }
    }

    method UseTemplate(key: TemplateKey, now: i64) returns (e: Option<TemplateEntry>)
      modifies this`entries
      ensures Model() == Use(old(Model()), key, now)
      ensures e == if key in old(entries) then Some(Touch(old(entries)[key], now)) else None
    {
      if key !in entries {
        return None;
      }
      var touched := entries[key];
      touched := touched.(useCount := (touched.useCount + 1) % TWO_64);
      touched := touched.(lastSeen := now);
      entries := entries[key := touched];
      e := Some(touched);
    }

    /** Buffer a Data Set, or refuse it and change nothing. */
    method PushPending(key: TemplateKey, rec: PendingRecord) returns (ok: bool)
      modifies this`pending, this`pendingBytes
      ensures ok == CanPush(old(Model()), rec)
      ensures Model() == if ok then Push(old(Model()), key, rec) else old(Model())
    {
      var cost := |rec.payload| % TWO_32;
      var saturated := if pendingBytes + cost < TWO_32 then pendingBytes + cost else TWO_32 - 1;
      if saturated > capPendingBytes {
        return false;
      }
      pendingBytes := (pendingBytes + cost) % TWO_32;
      if key in pending {
        pending := pending[key := pending[key] + [rec]];
      } else {
        pending := pending[key := [] + [rec]];
      }
      ok := true;
    }

    method TakePending(key: TemplateKey) returns (recs: seq<PendingRecord>)
      modifies this`pending, this`pendingBytes
      ensures recs == WaitingAt(old(pending), key)
      ensures Model() == Take(old(Model()), key)
    {
      recs := if key in pending then pending[key] else [];
      pending := pending - {key};
      var freed := SumPayloads(recs);
      var cut := freed % TWO_32;
      pendingBytes := if pendingBytes >= cut then pendingBytes - cut else 0;
    }

    method PendingKeys() returns (ks: seq<TemplateKey>)
      ensures ks == SortedKeys(pending.Keys)
    {
      ks := ListKeys(pending.Keys);
    }

    method DrainPending() returns (all: seq<(TemplateKey, seq<PendingRecord>)>)
      modifies this`pending, this`pendingBytes
      ensures all == PairUp(old(pending), SortedKeys(old(pending).Keys))
      ensures Model() == Drain(old(Model()))
    {
      pendingBytes := 0;
      var ks := ListKeys(pending.Keys);
      all := PairUp(pending, ks);
      pending := map[];
    }

    method Serialize() returns (t: Token)
      ensures t == ToToken(Model())
    {
      var es := ListKeys(entries.Keys);
      var ps := ListKeys(pending.Keys);
      t := Whole(CacheDto(PairUp(entries, es), PairUp(pending, ps), capEntries, capPendingBytes));
    }

    /** Rehydrate, recounting the buffered bytes; a token that is empty or corrupt gives a fresh cache. */
    constructor Rehydrate(t: Token)
      ensures Model() == FromToken(t)
    {
      if t.Whole? {
        entries, pending := Collect(t.dto.entries), Collect(t.dto.pending);
        capEntries, capPendingBytes, pendingBytes := t.dto.capEntries, t.dto.capPendingBytes, 0;
      } else {
        entries, pending := map[], map[];
        capEntries, capPendingBytes, pendingBytes := DEFAULT_CAP_ENTRIES, DEFAULT_CAP_PENDING_BYTES, 0;
      }
      new;
      if t.Whole? {
        Recount();
      }
    }

    method Recount()
      modifies this`pendingBytes
      ensures pendingBytes == TotalBytes(pending) % TWO_32
    {
      var sum := SumPending(pending);
      pendingBytes := sum % TWO_32;
    }
  }

  method SumPending(p: Pending) returns (sum: nat)
    ensures sum == TotalBytes(p)
  {
    hide TotalBytes, PayloadBytes;
    var rest := p;
    sum := 0;
    while rest != map[]
      invariant sum + TotalBytes(rest) == TotalBytes(p)
      decreases |rest|
    {
      var k :| k in rest;
      RecountStep(rest, k);
      sum := sum + PayloadBytes(rest[k]);
      rest := rest - {k};
    }
    NoBytes();
  }
}

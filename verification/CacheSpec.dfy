/** The template cache as a value: what each operation does, and what every one of them keeps. */
module CacheSpec {
  import opened Wire
  import opened Flow
  import opened KeyOrder

  type Entries = map<TemplateKey, TemplateEntry>
  type Pending = map<TemplateKey, seq<PendingRecord>>

  datatype CacheState = CacheState(
    entries: Entries, pending: Pending, capEntries: u32, capPendingBytes: u32, pendingBytes: u32)

  const DEFAULT_CAP_ENTRIES := 100_000
  const DEFAULT_CAP_PENDING_BYTES := 4 * 1024 * 1024

  function EmptyCache(): CacheState {
    CacheState(map[], map[], DEFAULT_CAP_ENTRIES, DEFAULT_CAP_PENDING_BYTES, 0)
  }

  lemma SmallMod(x: int)
    requires 0 <= x < TWO_32
    ensures x % TWO_32 == x
  {
  }

  // Eviction.

  /** `a` was touched before `b`; ties go to the smaller key, the first one the iterator meets. */
  ghost predicate Older(m: Entries, a: TemplateKey, b: TemplateKey)
    requires a in m && b in m
  {
    m[a].lastSeen < m[b].lastSeen || (m[a].lastSeen == m[b].lastSeen && KeyLess(a, b))
  }

  ghost predicate IsOldest(m: Entries, v: TemplateKey) {
    v in m && forall k :: k in m && k != v ==> Older(m, v, k)
  }

  lemma OlderTotal(m: Entries, a: TemplateKey, b: TemplateKey)
    requires a in m && b in m
    ensures Older(m, a, b) || a == b || Older(m, b, a)
    ensures !(Older(m, a, b) && Older(m, b, a))
    ensures !Older(m, a, a)
  {
    KeyTotal(a, b);
    KeyTotal(a, a);
  }

  lemma OlderTransitive(m: Entries, a: TemplateKey, b: TemplateKey, c: TemplateKey)
    requires a in m && b in m && c in m
    requires Older(m, a, b) && Older(m, b, c)
    ensures Older(m, a, c)
  {
    if KeyLess(a, b) && KeyLess(b, c) {
      KeyTransitive(a, b, c);
    }
  }

  lemma {:induction false} OldestExists(m: Entries, s: set<TemplateKey>) returns (v: TemplateKey)
    requires s != {} && s <= m.Keys
    ensures v in s && forall k :: k in s && k != v ==> Older(m, v, k)
  {
    hide Older;
    var k :| k in s;
    if s == {k} {
      v := k;
    } else {
      var r := OldestExists(m, s - {k});
      OlderTotal(m, k, r);
      v := if Older(m, k, r) then k else r;
      forall j | j in s && j != v
        ensures Older(m, v, j)
      {
        if v == k && j != r {
          OlderTransitive(m, k, r, j);
        }
      }
    }
  }

  ghost function Oldest(m: Entries): (v: TemplateKey)
    requires m != map[]
    ensures IsOldest(m, v)
  {
    assert exists v :: IsOldest(m, v) by {
      var k :| k in m;
      assert k in m.Keys;
      var v := OldestExists(m, m.Keys);
      assert IsOldest(m, v);
    }
    var v :| IsOldest(m, v);
    v
  }

  lemma OldestUnique(m: Entries, a: TemplateKey, b: TemplateKey)
    requires IsOldest(m, a) && IsOldest(m, b)
    ensures a == b
  {
    OlderTotal(m, a, b);
  }

  /** Drop the oldest entry while the count, cut to 32 bits, is over the cap. */
  ghost function Evict(m: Entries, cap: u32): (r: Entries)
    ensures r.Keys <= m.Keys && forall k :: k in r ==> r[k] == m[k]
    decreases |m|
  {
    if |m| % TWO_32 <= cap || m == map[] then m else Evict(m - {Oldest(m)}, cap)
  }

  /** How many entries are older than `k`. */
  ghost function Rank(m: Entries, k: TemplateKey): nat
    requires k in m
  {
    |set j | j in m && Older(m, j, k)|
  }

  lemma RankDrops(m: Entries, v: TemplateKey, k: TemplateKey)
    requires IsOldest(m, v) && k in m && k != v
    ensures Rank(m, k) == Rank(m - {v}, k) + 1
  {
    var all := set j | j in m && Older(m, j, k);
    var rest := set j | j in m - {v} && Older(m - {v}, j, k);
    assert all == rest + {v};
  }

  lemma RankOfOldest(m: Entries, v: TemplateKey)
    requires IsOldest(m, v)
    ensures Rank(m, v) == 0
  {
    forall j | j in m ensures !Older(m, j, v) {
      OlderTotal(m, j, v);
    }
    assert (set j | j in m && Older(m, j, v)) == {};
  }

  /** How many of `n` entries eviction leaves: the count cut to 32 bits is brought down to the cap. */
  function KeptCount(n: nat, cap: u32): nat {
    if n % TWO_32 <= cap then n else n - n % TWO_32 + cap
  }

  /** One turn of the loop. */
  lemma KeptStep(m: Entries, cap: u32)
    ensures |m| % TWO_32 <= cap ==> Evict(m, cap) == m && KeptCount(|m|, cap) == |m|
    ensures |m| % TWO_32 > cap ==>
      var rest := m - {Oldest(m)};
      && Evict(m, cap) == Evict(rest, cap) && |rest| == |m| - 1
      && |m| > KeptCount(|m|, cap) == KeptCount(|rest|, cap)
  {
    if |m| % TWO_32 > cap {
      var v := Oldest(m);
      assert (m - {v}).Keys == m.Keys - {v} && |m| == |m.Keys|;
      KeptBelow(|m|, cap);
    }
    hide IsOldest, KeptCount;
  }

  lemma KeptBelow(n: nat, cap: u32)
    requires n % TWO_32 > cap
    ensures n > KeptCount(n, cap) == KeptCount(n - 1, cap)
  {
  }

  /**
   * Eviction refines sort-and-truncate: from any map exactly `KeptCount` entries stay, each unchanged, and they are
   * the youngest. Being among the youngest is said by rank, without reference to the loop.
   */
  lemma {:induction false} EvictKeepsYoungest(m: Entries, cap: u32)
    ensures |Evict(m, cap)| == KeptCount(|m|, cap)
    ensures Evict(m, cap) == map k | k in m && Rank(m, k) + KeptCount(|m|, cap) >= |m| :: m[k]
    decreases |m|
  {
    hide Older, Rank, IsOldest, Evict, KeptCount;
    KeptStep(m, cap);
    if |m| % TWO_32 > cap {
      var v := Oldest(m);
      EvictKeepsYoungest(m - {v}, cap);
      YoungestOfRest(m, v, KeptCount(|m|, cap));
    }
  }

  lemma YoungestOfRest(m: Entries, v: TemplateKey, kept: nat)
    requires IsOldest(m, v) && |m| > kept
    ensures (map k | k in m && Rank(m, k) + kept >= |m| :: m[k])
         == (map k | k in m - {v} && Rank(m - {v}, k) + kept >= |m| - 1 :: m[k])
  {
    RankOfOldest(m, v);
    forall k | k in m - {v} ensures Rank(m, k) == Rank(m - {v}, k) + 1 {
      RankDrops(m, v, k);
    }
    hide Rank, IsOldest;
  }

  /** Every victim is older than every survivor. */
  lemma {:induction false} VictimsAreOlder(m: Entries, cap: u32, v: TemplateKey, s: TemplateKey)
    requires v in m && v !in Evict(m, cap) && s in Evict(m, cap)
    ensures Older(m, v, s)
    decreases |m|
  {
    if !(|m| % TWO_32 <= cap || m == map[]) {
      var o := Oldest(m);
      if v != o {
        VictimsAreOlder(m - {o}, cap, v, s);
      }
    }
  }

  /** The cap holds after eviction exactly when fewer than 2^32 entries went in. */
  lemma EvictMeetsCapIff(m: Entries, cap: u32)
    ensures |Evict(m, cap)| <= cap <==> |m| < TWO_32
    ensures |m| < TWO_32 ==> |Evict(m, cap)| == Min(|m|, cap)
  {
    EvictKeepsYoungest(m, cap);
    hide Evict, Rank;
    if |m| < TWO_32 {
      SmallMod(|m|);
    }
  }

  /** With room for one entry at all, an entry touched after every other survives. */
  lemma YoungestSurvives(m: Entries, cap: u32, key: TemplateKey)
    requires key in m && cap > 0
    requires forall k :: k in m && k != key ==> m[k].lastSeen < m[key].lastSeen
    ensures key in Evict(m, cap)
  {
    hide Evict, Rank, Older;
    EvictKeepsYoungest(m, cap);
    RankOfYoungest(m, key);
    KeepsSome(|m|, cap);
    hide KeptCount;
  }

  lemma KeepsSome(n: nat, cap: u32)
    requires n > 0 && cap > 0
    ensures KeptCount(n, cap) > 0
  {
  }

  lemma RankOfYoungest(m: Entries, key: TemplateKey)
    requires key in m && forall k :: k in m && k != key ==> m[k].lastSeen < m[key].lastSeen
    ensures Rank(m, key) == |m| - 1
  {
    OlderTotal(m, key, key);
    var others := set j | j in m && Older(m, j, key);
    assert others == m.Keys - {key};
    assert |m.Keys - {key}| == |m.Keys| - 1;
  }

  /** At 2^32 entries the count cuts to zero and nothing is evicted, whatever the cap. */
  lemma EvictMissesWrappedCount(m: Entries, cap: u32)
    requires |m| == TWO_32
    ensures Evict(m, cap) == m
  {
  }

  // Buffered bytes.

  function PayloadBytes(recs: seq<PendingRecord>): nat {
    if recs == [] then 0 else |recs[0].payload| + PayloadBytes(recs[1..])
  }

  lemma {:induction false} PayloadBytesConcat(a: seq<PendingRecord>, b: seq<PendingRecord>)
    ensures PayloadBytes(a + b) == PayloadBytes(a) + PayloadBytes(b)
  {
    if a == [] {
      assert a + b == b;
    } else {
      assert (a + b)[1..] == a[1..] + b;
      PayloadBytesConcat(a[1..], b);
    }
  }

  ghost function TotalBytes(p: Pending): nat
    decreases |p|
  {
    if p == map[] then 0
    else
      var k :| k in p;
      PayloadBytes(p[k]) + TotalBytes(p - {k})
  }

  lemma NoBytes()
    ensures TotalBytes(map[]) == 0
  {
  }

  lemma {:induction false} TotalBytesAt(p: Pending, k: TemplateKey)
    requires k in p
    ensures TotalBytes(p) == PayloadBytes(p[k]) + TotalBytes(p - {k})
    decreases |p|
  {
    var j :| j in p && TotalBytes(p) == PayloadBytes(p[j]) + TotalBytes(p - {j});
    if j != k {
      TotalBytesAt(p - {j}, k);
      TotalBytesAt(p - {k}, j);
      assert p - {j} - {k} == p - {k} - {j};
    }
  }

  lemma TotalBytesUpdate(p: Pending, k: TemplateKey, recs: seq<PendingRecord>)
    ensures TotalBytes(p[k := recs])
         == TotalBytes(p) - (if k in p then PayloadBytes(p[k]) else 0) + PayloadBytes(recs)
  {
    TotalBytesAt(p[k := recs], k);
    if k in p {
      TotalBytesAt(p, k);
      assert p[k := recs] - {k} == p - {k};
    } else {
      assert p[k := recs] - {k} == p;
    }
  }

  /** A part of the buffer holds no more bytes than the whole. */
  lemma {:induction false} TotalBytesPart(part: Pending, whole: Pending)
    requires part.Keys <= whole.Keys && forall k :: k in part ==> part[k] == whole[k]
    ensures TotalBytes(part) <= TotalBytes(whole)
    decreases |part|
  {
    if part != map[] {
      var k :| k in part;
      TotalBytesAt(part, k);
      TotalBytesAt(whole, k);
      TotalBytesPart(part - {k}, whole - {k});
    }
  }

  // The operations.

  /** A redefinition keeps the first-seen time and the use count of the layout it replaces. */
  function Inherit(entries: Entries, key: TemplateKey, entry: TemplateEntry): TemplateEntry {
    if key in entries
    then entry.(firstSeen := entries[key].firstSeen, useCount := entries[key].useCount)
    else entry
  }

  ghost function Upsert(c: CacheState, key: TemplateKey, entry: TemplateEntry): CacheState {
    c.(entries := Evict(c.entries[key := Inherit(c.entries, key, entry)], c.capEntries))
  }

  function Touch(e: TemplateEntry, now: i64): TemplateEntry {
    e.(useCount := (e.useCount + 1) % TWO_64, lastSeen := now)
  }

  function Use(c: CacheState, key: TemplateKey, now: i64): CacheState {
    if key in c.entries then c.(entries := c.entries[key := Touch(c.entries[key], now)]) else c
  }

  function Min(a: int, b: int): int {
    if a <= b then a else b
  }

  function Max(a: int, b: int): int {
    if a >= b then a else b
  }

  /** The test before buffering: a saturating 32-bit sum against the cap. */
  predicate CanPush(c: CacheState, rec: PendingRecord) {
    Min(c.pendingBytes + |rec.payload| % TWO_32, TWO_32 - 1) <= c.capPendingBytes
  }

  function WaitingAt(p: Pending, key: TemplateKey): seq<PendingRecord> {
    if key in p then p[key] else []
  }

  /** The addition itself is unchecked. */
  function Push(c: CacheState, key: TemplateKey, rec: PendingRecord): CacheState {
    c.(pendingBytes := (c.pendingBytes + |rec.payload| % TWO_32) % TWO_32,
       pending := c.pending[key := WaitingAt(c.pending, key) + [rec]])
  }

  function Take(c: CacheState, key: TemplateKey): CacheState {
    c.(pendingBytes := Max(c.pendingBytes - PayloadBytes(WaitingAt(c.pending, key)) % TWO_32, 0),
       pending := c.pending - {key})
  }

  function Drain(c: CacheState): CacheState {
    c.(pendingBytes := 0, pending := map[])
  }

  // What every operation keeps.

  /** The byte counter is the sum of the buffered payloads, both caps hold, and no buffered list is empty. */
  ghost predicate Valid(c: CacheState) {
    && c.capEntries < TWO_32 - 1
    && c.capPendingBytes < TWO_32 - 1
    && |c.entries| <= c.capEntries
    && c.pendingBytes == TotalBytes(c.pending) <= c.capPendingBytes
    && forall k :: k in c.pending ==> c.pending[k] != []
  }

  /** Nothing waits for a template that is known. */
  ghost predicate Quiet(c: CacheState) {
    forall k :: k in c.pending ==> k !in c.entries
  }

  lemma EmptyIsValid()
    ensures Valid(EmptyCache()) && Quiet(EmptyCache())
  {
  }

  lemma UpsertKeepsValid(c: CacheState, key: TemplateKey, entry: TemplateEntry)
    requires Valid(c)
    ensures Valid(Upsert(c, key, entry))
  {
    var m := c.entries[key := Inherit(c.entries, key, entry)];
    assert |m| <= |c.entries| + 1 by {
      assert m.Keys == c.entries.Keys + {key};
    }
    EvictMeetsCapIff(m, c.capEntries);
    hide Evict, Inherit;
  }

  lemma UseKeepsValid(c: CacheState, key: TemplateKey, now: i64)
    requires Valid(c)
    ensures Valid(Use(c, key, now)) && Use(c, key, now).entries.Keys == c.entries.Keys
  {
    assert Use(c, key, now).entries.Keys == c.entries.Keys;
    hide Touch;
  }

  /** In a valid state the acceptance test and the counter are exact: no cast, sum or difference wraps or saturates. */
  lemma PushKeepsValid(c: CacheState, key: TemplateKey, rec: PendingRecord)
    requires Valid(c) && |rec.payload| < TWO_32
    ensures CanPush(c, rec) <==> c.pendingBytes + |rec.payload| <= c.capPendingBytes
    ensures CanPush(c, rec) ==>
      Valid(Push(c, key, rec)) && Push(c, key, rec).pendingBytes == c.pendingBytes + |rec.payload|
  {
    SmallMod(|rec.payload|);
    if CanPush(c, rec) {
      SmallMod(c.pendingBytes + |rec.payload|);
      PushAddsBytes(c.pending, key, rec);
    }
    hide TotalBytes;
  }

  lemma PushAddsBytes(p: Pending, key: TemplateKey, rec: PendingRecord)
    ensures TotalBytes(p[key := WaitingAt(p, key) + [rec]]) == TotalBytes(p) + |rec.payload|
  {
    var before := WaitingAt(p, key);
    TotalBytesUpdate(p, key, before + [rec]);
    PayloadBytesConcat(before, [rec]);
    assert PayloadBytes([rec]) == |rec.payload| + PayloadBytes([]);
    assert PayloadBytes([]) == 0;
    hide TotalBytes, PayloadBytes;
  }

  lemma TakeKeepsValid(c: CacheState, key: TemplateKey)
    requires Valid(c)
    ensures Valid(Take(c, key))
    ensures Take(c, key).pendingBytes == c.pendingBytes - PayloadBytes(WaitingAt(c.pending, key))
  {
    var freed := PayloadBytes(WaitingAt(c.pending, key));
    if key in c.pending {
      TotalBytesAt(c.pending, key);
    } else {
      assert c.pending - {key} == c.pending;
    }
    hide TotalBytes, PayloadBytes;
    SmallMod(freed);
  }

  lemma DrainKeepsValid(c: CacheState)
    requires Valid(c)
    ensures Valid(Drain(c)) && Quiet(Drain(c))
  {
  }

  /** With the largest cap the saturating test no longer protects the addition. */
  lemma PushWrapsAtLargestCap(c: CacheState, key: TemplateKey, rec: PendingRecord)
    requires c.pendingBytes == TotalBytes(c.pending) <= c.capPendingBytes
    requires |rec.payload| < TWO_32 && CanPush(c, rec)
    ensures Push(c, key, rec).pendingBytes == TotalBytes(Push(c, key, rec).pending)
       <==> !(c.capPendingBytes == TWO_32 - 1 && c.pendingBytes + |rec.payload| >= TWO_32)
  {
    PushAddsBytes(c.pending, key, rec);
    SmallMod(|rec.payload|);
    hide TotalBytes;
    if c.pendingBytes + |rec.payload| < TWO_32 {
      SmallMod(c.pendingBytes + |rec.payload|);
    }
  }

  lemma {:induction false} RepeatedBytes(rec: PendingRecord, n: nat)
    ensures PayloadBytes(seq(n, _ => rec)) == n * |rec.payload|
  {
    if n > 0 {
      assert seq(n, _ => rec)[1..] == seq(n - 1, _ => rec);
      RepeatedBytes(rec, n - 1);
    }
  }

  /**
   * A state that does wrap: cap 2^32 - 1 and 2^32 - 2^15 bytes buffered in Data Sets of 2^15 bytes. One more such
   * Data Set passes the test and takes the counter to zero.
   */
  lemma CounterWrapsToZero(key: TemplateKey, rec: PendingRecord)
    requires |rec.payload| == 0x8000
    ensures var p := map[key := seq(0x1_FFFF, _ => rec)];
      var c := CacheState(map[], p, DEFAULT_CAP_ENTRIES, TWO_32 - 1, TWO_32 - 0x8000);
      && c.pendingBytes == TotalBytes(c.pending) <= c.capPendingBytes && CanPush(c, rec)
      && Push(c, key, rec).pendingBytes == 0 && TotalBytes(Push(c, key, rec).pending) == TWO_32
  {
    var recs := seq(0x1_FFFF, _ => rec);
    var p := map[key := recs];
    RepeatedBytes(rec, 0x1_FFFF);
    TotalBytesAt(p, key);
    assert p - {key} == map[];
    NoBytes();
    PushAddsBytes(p, key, rec);
    hide TotalBytes, PayloadBytes;
  }

  // Serialization.

  datatype CacheDto = CacheDto(
    entries: seq<(TemplateKey, TemplateEntry)>,
    pending: seq<(TemplateKey, seq<PendingRecord>)>,
    capEntries: u32,
    capPendingBytes: u32)

  /** Pair off a map over the given keys. */
  function PairUp<T>(m: map<TemplateKey, T>, ks: seq<TemplateKey>): (ps: seq<(TemplateKey, T)>)
    requires forall k :: k in ks ==> k in m
    ensures |ps| == |ks| && forall i :: 0 <= i < |ks| ==> ps[i] == (ks[i], m[ks[i]])
  {
    if ks == [] then [] else [(ks[0], m[ks[0]])] + PairUp(m, ks[1..])
  }

  /** Collecting pairs into a map: later pairs replace earlier ones. */
  function Collect<T>(ps: seq<(TemplateKey, T)>): map<TemplateKey, T> {
    if ps == [] then map[]
    else Collect(ps[..|ps| - 1])[ps[|ps| - 1].0 := ps[|ps| - 1].1]
  }

  /** Pairs that agree with a map collect to a part of it, with a key for each pair. */
  lemma {:induction false} CollectHas<T>(m: map<TemplateKey, T>, ps: seq<(TemplateKey, T)>)
    requires forall i :: 0 <= i < |ps| ==> ps[i].0 in m && m[ps[i].0] == ps[i].1
    ensures forall i :: 0 <= i < |ps| ==> ps[i].0 in Collect(ps)
    ensures forall k :: k in Collect(ps) ==> k in m && Collect(ps)[k] == m[k]
  {
    if ps != [] {
      CollectHas(m, ps[..|ps| - 1]);
    }
  }

  lemma CollectKey<T>(m: map<TemplateKey, T>, ks: seq<TemplateKey>, k: TemplateKey)
    requires k in ks && forall j :: j in ks ==> j in m
    ensures k in Collect(PairUp(m, ks))
  {
    var i :| 0 <= i < |ks| && ks[i] == k;
    assert PairUp(m, ks)[i].0 == k;
    CollectHas(m, PairUp(m, ks));
    hide Collect, PairUp;
  }

  lemma SameMap<T>(a: map<TemplateKey, T>, b: map<TemplateKey, T>)
    requires forall k :: k in a ==> k in b
    requires forall k :: k in b ==> k in a && b[k] == a[k]
    ensures a == b
  {
  }

  lemma CollectPairs<T>(m: map<TemplateKey, T>)
    ensures Collect(PairUp(m, SortedKeys(m.Keys))) == m
  {
    var ks := SortedKeys(m.Keys);
    assert forall k :: k in ks <==> k in m.Keys;
    hide SortedKeys, Collect, PairUp;
    CollectHas(m, PairUp(m, ks));
    forall k | k in m ensures k in Collect(PairUp(m, ks)) {
      CollectKey(m, ks, k);
    }
    SameMap(m, Collect(PairUp(m, ks)));
  }

  ghost function ToDto(c: CacheState): CacheDto {
    CacheDto(PairUp(c.entries, SortedKeys(c.entries.Keys)), PairUp(c.pending, SortedKeys(c.pending.Keys)),
      c.capEntries, c.capPendingBytes)
  }

  /** The byte counter is not stored; it is recomputed, in 32 bits. */
  ghost function FromDto(d: CacheDto): CacheState {
    CacheState(Collect(d.entries), Collect(d.pending), d.capEntries, d.capPendingBytes,
      TotalBytes(Collect(d.pending)) % TWO_32)
  }

  /** What storage holds for a cache: nothing, text that is not a cache, or the lossless text of one. */
  datatype Token = Blank | Corrupt | Whole(dto: CacheDto)

  /** An empty or corrupt token gives an empty cache. */
  ghost function FromToken(t: Token): CacheState {
    if t.Whole? then FromDto(t.dto) else EmptyCache()
  }

  ghost function ToToken(c: CacheState): Token {
    Whole(ToDto(c))
  }

  /** Rehydration gives the same cache back exactly when the byte counter was accurate to begin with. */
  lemma RehydrateIdentityIff(c: CacheState)
    ensures FromDto(ToDto(c)) == c <==> c.pendingBytes == TotalBytes(c.pending) % TWO_32
  {
    CollectPairs(c.entries);
    CollectPairs(c.pending);
    hide Collect, TotalBytes;
  }

  lemma RehydrateIdentity(c: CacheState)
    requires Valid(c)
    ensures FromDto(ToDto(c)) == c
  {
    RehydrateIdentityIff(c);
    hide FromDto, ToDto;
    SmallMod(TotalBytes(c.pending));
  }

  // A cache entry and its history.

  datatype Op =
    | DoUpsert(key: TemplateKey, entry: TemplateEntry)
    | DoUse(key: TemplateKey, now: i64)

  ghost function Apply(c: CacheState, op: Op): CacheState {
    match op
    case DoUpsert(key, entry) => Upsert(c, key, entry)
    case DoUse(key, now) => Use(c, key, now)
  }

  ghost function ApplyAll(c: CacheState, ops: seq<Op>): CacheState {
    if ops == [] then c else Apply(ApplyAll(c, ops[..|ops| - 1]), ops[|ops| - 1])
  }

  /** The operations that concern one key. */
  function About(ops: seq<Op>, key: TemplateKey): (r: seq<Op>)
    ensures forall op :: op in r ==> op.key == key
  {
    if ops == [] then []
    else About(ops[..|ops| - 1], key) + if ops[|ops| - 1].key == key then [ops[|ops| - 1]] else []
  }

  /** The layout given by the last definition, if any. */
  function LastDefinition(ops: seq<Op>): Option<TemplateEntry> {
    if ops == [] then None
    else if ops[|ops| - 1].DoUpsert? then Some(ops[|ops| - 1].entry)
    else LastDefinition(ops[..|ops| - 1])
  }

  function CountUses(ops: seq<Op>): nat {
    if ops == [] then 0
    else CountUses(ops[..|ops| - 1]) + if ops[|ops| - 1].DoUse? then 1 else 0
  }

  function TimeOf(op: Op): i64 {
    match op
    case DoUpsert(_, entry) => entry.lastSeen
    case DoUse(_, now) => now
  }

  /** What the record of a key should say, from the operations on it since `first` introduced it. */
  ghost predicate MatchesHistory(e: TemplateEntry, first: TemplateEntry, ops: seq<Op>) {
    var latest := if LastDefinition(ops).Some? then LastDefinition(ops).value else first;
    && (e.kind, e.fields, e.scopeFieldCount) == (latest.kind, latest.fields, latest.scopeFieldCount)
    && e.firstSeen == first.firstSeen
    && e.useCount == (first.useCount + CountUses(ops)) % TWO_64
    && e.lastSeen == if ops == [] then first.lastSeen else TimeOf(ops[|ops| - 1])
  }

  /**
   * For a key that stays cached from the moment it is learned, through any operations on this and other keys,
   * evictions of others included: the layout is the last one defined, the first-seen time the first one's, the
   * use count the number of uses since, and the last-seen time that of the latest touch.
   */
  lemma {:induction false} EntryMatchesHistory(c: CacheState, key: TemplateKey, first: TemplateEntry, ops: seq<Op>)
    requires key !in c.entries
    requires forall n :: 0 <= n <= |ops| ==> key in ApplyAll(Upsert(c, key, first), ops[..n]).entries
    ensures key in ApplyAll(Upsert(c, key, first), ops).entries
    ensures MatchesHistory(ApplyAll(Upsert(c, key, first), ops).entries[key], first, About(ops, key))
  {
    assert ops[..|ops|] == ops;
    var c1 := Upsert(c, key, first);
    if ops == [] {
      assert ops[..0] == [];
      assert key in ApplyAll(c1, ops[..0]).entries;
    } else {
      var n := |ops| - 1;
      var before, op := ops[..n], ops[n];
      forall i | 0 <= i <= n ensures key in ApplyAll(c1, before[..i]).entries {
        assert before[..i] == ops[..i];
      }
      EntryMatchesHistory(c, key, first, before);
      var prior, log := ApplyAll(c1, before), About(before, key);
      assert before[..n] == before;
      assert key in prior.entries;
      OneStepOfHistory(prior, key, first, log, op);
      hide MatchesHistory, Apply, Upsert;
    }
  }

  lemma OneStepOfHistory(prior: CacheState, key: TemplateKey, first: TemplateEntry, log: seq<Op>, op: Op)
    requires key in prior.entries && key in Apply(prior, op).entries
    requires MatchesHistory(prior.entries[key], first, log)
    ensures MatchesHistory(Apply(prior, op).entries[key], first, if op.key == key then log + [op] else log + [])
  {
    assert log + [] == log;
    var log' := log + [op];
    assert log'[..|log'| - 1] == log;
    hide Evict;
  }
}

# A verified model of the template-stateful flow decoder

NetFlow v9 and IPFIX Data Sets carry no field descriptors, only a template id. The decoder therefore keeps a cache of
template layouts keyed by exporter, observation domain and template id, buffers Data Sets that arrive before their
template, retries them when it comes, and hands the whole cache from batch to batch in serialized form. This project
models that engine in Dafny, with the wire layer under it and the arithmetic it rests on, and proves what the engine
is for: no Data Set is lost or counted twice, exporters do not disturb one another, late templates give the rows early
ones would have given, and batch boundaries cannot be seen.

`dafny verify dfyconfig.toml` checks everything.

## How it is laid out

| module | what it holds |
|---|---|
| `Wire`, `Inet` | fixed-width integers, big-endian encoding, the bounded reader `Cursor`, `INET` cells |
| `Flow`, `Fields` | the entities; mapping one record's fields onto a row |
| `DataSet` | slicing a Data Set against a layout; printing records |
| `Framing`, `Headers`, `WellFormed`, `V5` | Sets, export headers, structural validation, NetFlow v5 |
| `KeyOrder`, `CacheSpec`, `Cache` | map order; the cache as a value and its laws; the cache as an object updated in place |
| `Templates` | template records: parsing, printing, learning |
| `Scan` | one datagram, one retry, one flush, one run, as functions of the cache value |
| `Decoder` | the same as methods over the mutable cache, the batch loop and storage |
| `Truth`, `Modes` | every event of a run judged by the layouts defined so far; what `flows-only` changes |
| `Invariants` | reachable states; conservation of Data Sets; flush labels |
| `KeyView`, `KeyTheorems` | the scan seen from one key; deferred decode equals immediate decode |
| `Isolation` | non-interference between (exporter, domain) scopes, row for row |
| `LateTemplate` | a data datagram before its template, from bytes to rows |
| `Budget` | a condition on the input alone under which neither cap is reached |
| `Projection`, `Batches` | mirroring into the process-wide projection; batch transparency |
| `NoStorage` | a worker without storage: what it loses, exactly |
| `Direct` | datagrams that never reach the template engine, column by column |
| `Datagrams`, `History` | Set order and whole-datagram round trips; entries against their history |

Code that updates state is modelled as methods and classes with loops, each proved equal to a specification function;
the laws are proved about those functions. `Scan` emits rows through events that name the Data Set they settle and how
(`Decoded` on arrival, `Refused` by a full buffer, `Retried`, `Flushed`); the rows of a run are the events' rows in
order, and `Decoder` proves that its methods return exactly those rows.

Integer widths are explicit. The byte counter and the entry count are cut to 32 bits where the code casts them, the
use count wraps at 64 bits, and time arithmetic wraps as unchecked 64-bit signed arithmetic does.

## Where the code and its comments part

- A flush labels all rows of a key with the version of the key's first record (`decode/mod.rs:179`), a retry with each
  record's own. v9 and IPFIX can share a key. `FlushLabelsRightIff` and, for every scan, `ScanLabelsRightIff` give the
  exact condition, `FlushMislabels` a run.
- The IPFIX decoder splits everything after the header and ignores the declared length, which the validator honours.
  `IpfixAgreesIff`: they see the same Sets exactly when fewer than four bytes follow the declared end.
  `IpfixReadsPastTheEnd`: a datagram of 20 bytes where they differ.
- Trailing padding is said to be ignored, but the minimum record size leaves out variable-length prefixes.
  `PaddingInvisibleIff` gives the exact condition, `LegalPaddingCanTruncate` a legal padding that yields a row.
- Elements 150 to 153 are scaled without an overflow check. `ScaledTimeExact`: exact if and only if the product fits.
  `LateStartReadsAsEarly`: a record whose start time comes out before 1970.
- The saturating test before buffering protects the addition after it except with the largest cap
  (`PushWrapsAtLargestCap`; `CounterWrapsToZero` is a state that wraps). The eviction test cuts the count to 32 bits:
  the cap holds afterwards exactly when fewer than 2^32 entries went in (`EvictMeetsCapIff`), and 2^32 entries are not
  evicted at all (`EvictMissesWrappedCount`). The theorems on `Valid` states ask for caps below 2^32 - 1; the defaults
  are 100 000 entries and 4 MiB.
- The comment at `decode/v9.rs:181` names section 6.2 of RFC 3954 for the options template; the format is in
  section 6.1.
- IPFIX withdrawals remove nothing, and end their Set (`WithdrawalIsIgnored`).
- Mirroring a scan's entries into the process-wide projection keeps the projection's own use count for every key the
  projection still holds (`MirrorFreezesStatistics`).
- Data Sets are said never to be dropped, but a worker without storage starts every batch cold and forgets what the
  batch left buffered. `ConservesIff`: within the default caps nothing is lost exactly when each batch that brings Data
  Sets for a key defines the key or flushes after them. `WithoutStorageDataIsLost` is the smallest loss.

## Model

| member | source | states |
|---|---|---|
| `Isolation.NonInterference` | crates/netflow-core/src/decode/mod.rs:84-196 | In any run that mixes exporters and domains and reaches neither cap, each v9 or IPFIX datagram of one scope emits, event for event and in order, what it emits when only that scope's datagrams are run; so does the scope's share of every flush; the final cache restricted to the scope is the isolated one |
| `KeyTheorems.RunRefines` | crates/netflow-core/src/decode/mod.rs:84-196 | Over any run within the caps, every key behaves as an independent reference machine: without a layout it queues, with one it decodes arrivals and then the queue |
| `KeyTheorems.OnlyOwnTrafficMatters` | crates/netflow-core/src/cache.rs:60-68 | Two runs from caches that agree on a key, in which the key gets the same templates and Data Sets, settle its Data Sets with the same rows whatever else they carry |
| `KeyTheorems.DeferredEqualsImmediate` | crates/netflow-core/src/decode/mod.rs:142-166 | Any number of Data Sets before their template give the same rows in the same order, and the same key state, as the template before all of them |
| `LateTemplate.DataBeforeTemplate` | crates/netflow-core/tests/decode.rs:100-117 | From a cold start, any printed v9 or IPFIX data datagram followed by a v9 or IPFIX datagram that defines its template, plain or options, yields exactly the printed records under the data datagram's header context (none if they are options data and the mode drops those), and nothing stays buffered for the key; the headers may name different domains if one is forced for both |
| `LateTemplate.MissingTemplateIsReported` | crates/netflow-core/src/decode/mod.rs:168-196 | A printed Data Set whose template never comes: after the flush, one row for its key with the version, time and sequence of its header, its domain and template id in the note, and no other column |
| `Invariants.RunConserves` | crates/netflow-core/src/decode/mod.rs:84-196 | From any cache and with any caps, each Data Set that arrives is settled by exactly one event or still buffered, never lost or duplicated, and every step of the run is truthful in the sense of the next row |
| `Truth.RunIsTruthful` | crates/netflow-core/src/decode/mod.rs:84-196 | With any caps, through evictions, rehydrations and flushes: the rows of a decoded or retried Data Set are its payload decoded against the last layout defined for its key, in the mode of the step and with its own header context; a refused one has a key that is not cached and is larger than the room the buffer is left with; a flushed one was waiting and is labelled by the first record that waited with it; both give one row that reports the missing domain and template id under the Data Set's own time and sequence and holds nothing else; every cached layout is the last one defined |
| `Truth.StepIsTruthful` | crates/netflow-core/src/decode/v9.rs:67-113 | The same for one step, with the layouts its own templates define in force for its Data Sets and its retries |
| `Invariants.FlushedScanSettlesEverything` | crates/netflow-core/src/decode/mod.rs:168-196 | A scan that ends with a flush has settled exactly the multiset of Data Sets it saw |
| `Invariants.EveryScanIsSound` | crates/netflow-core/src/cache.rs:108-115 | In every reachable state the byte counter is the sum of buffered payloads and within the cap, the entry cap holds, no buffered list is empty, only v9 and IPFIX Data Sets are buffered, and no key is both waiting and known |
| `Invariants.StepKeeps` | crates/netflow-core/src/decode/mod.rs:84-138 | Every datagram of any format and restriction, every rehydration and every flush keeps the byte accounting, the caps and quiescence |
| `Truth.DeferredIsDirect` | crates/netflow-core/src/decode/mod.rs:151-163 | Key and buffered record rebuild exactly the context immediate decoding would have used |
| `Invariants.FlushLabelsRightIff` | crates/netflow-core/src/decode/mod.rs:179-195 | A flush gives each row its own record's version exactly when all records of the key have one version |
| `KeyTheorems.ScanLabelsRightIff` | crates/netflow-core/src/decode/mod.rs:171-196 | The same for every key at the flush of every scan, whatever came before |
| `KeyTheorems.RowsInKeyOrder` | crates/netflow-core/src/decode/mod.rs:142-196 | From any cache, a retry and a flush go through the keys in map order, never back to one |
| `LateTemplate.FlushMislabels` | crates/netflow-core/src/decode/mod.rs:179-195 | A run of a printed v9 datagram, a printed IPFIX datagram with the same key, and a flush: each is reported under its own header, both as v9 |
| `Modes.ModesOnlyMute` | crates/netflow-core/src/decode/record.rs:84-92 | Over any run, the modes leave no trace in the cache at any point, and every step but an sFlow one emits the events it emits in `all`, less the rows of Data Sets decoded or retried against an Options layout where the mode drops those |
| `Modes.StepMuted` | crates/netflow-core/src/decode/mod.rs:84-138 | The same for one step |
| `Modes.AutoIsAll` | crates/netflow-core/src/decode/mod.rs:21-42 | A datagram in `auto` has the outcome of the same datagram in `all` |
| `Modes.FlowsOnlyDropsOptions` | crates/netflow-core/src/decode/record.rs:90-92 | A datagram in `flows-only` leaves no row of an Options layout, on arrival or on retry |
| `Isolation.EmptyProjects` | crates/netflow-worker/src/state.rs:20-31 | A cold cache restricted to a scope is a cold cache, so the isolated run of a cold scan starts cold |
| `Isolation.DueKeysAreOwn` | crates/netflow-core/src/decode/mod.rs:133-150 | From a quiet state, the retry scan only ever drains keys of the current datagram's exporter and domain |
| `Isolation.UnframedIsStateless` | crates/netflow-core/src/decode/mod.rs:94-137 | v5, sFlow, refused, malformed and unrecognised datagrams leave a quiet cache unchanged and do not depend on it |
| `Direct.V5Rows` | crates/netflow-core/src/decode/mod.rs:94-95 | A printed v5 datagram through the entry point: as many rows as it declares, in order, row i with every column of record i and of the header, times included; one row more that reports the truncation if records are missing; the cache unchanged |
| `Direct.NotAccepted` | crates/netflow-core/src/decode/mod.rs:115-122 | For each restriction, exactly the formats it lists are decoded as under `Any`; any other gives one row that names the format and nothing else |
| `Direct.NotAFlow` | crates/netflow-core/src/decode/mod.rs:123-130 | Bytes that are no flow datagram give one row that says so |
| `Direct.SflowRows` | crates/netflow-core/src/decode/mod.rs:112-113 | An sFlow datagram gives exactly the rows of the sFlow decoder |
| `Direct.ShortHeader` | crates/netflow-core/src/decode/v9.rs:32-41 | A v9 or IPFIX datagram shorter than its header gives one row that says so |
| `Direct.ShortV5Header` | crates/netflow-core/src/decode/v5.rs:13-22 | The same for v5, below 22 bytes |
| `Direct.BadRegion` | crates/netflow-core/src/decode/v9.rs:53-65 | One whose Sets do not split gives one row that says so, under its header and the domain it counts under |
| `Budget.WithinBudgetFits` | crates/netflow-core/src/cache.rs:146-191 | A run whose distinct template keys and total Data Set bytes fit the caps evicts nothing and refuses nothing at any point |
| `Batches.BatchingIsInvisible` | crates/netflow-worker/src/table_in_out/flows.rs:126-158 | With storage, any cut of a scan into batches, with the cache serialized, stored and rebuilt at each cut, gives the same events in order and the same final cache, byte counter included, whatever the projection holds; an empty or corrupt token is a cold start |
| `Batches.StoredProjection` | crates/netflow-worker/src/state.rs:41-48 | What the stored projection loads to: a mirrored key that is there has the scan's layout and last-seen time, any other is as before; with room for both it holds exactly the keys of both and keeps the statistics of those it held |
| `Batches.WithoutStorage` | crates/netflow-worker/src/state.rs:29-37 | Without storage every batch runs from an empty cache and nothing is kept |
| `NoStorage.ColdAccounting` | crates/netflow-worker/src/state.rs:29-37 | Without storage, for any batches: each Data Set is settled by exactly one event or is still buffered when its batch ends, and lost there |
| `NoStorage.ColdBatchLeaves` | crates/netflow-worker/src/state.rs:29-37 | Within the default caps a cold batch leaves waiting for a key nothing if it defines the key, else every Data Set it brought for the key since its last flush |
| `NoStorage.ConservesIff` | crates/netflow-worker/src/state.rs:29-37 | Batches within the default caps settle every Data Set exactly once if and only if none of them strands a key: brings Data Sets for it without defining it or flushing after them |
| `NoStorage.WithoutStorageDataIsLost` | crates/netflow-worker/src/state.rs:29-37 | A Data Set alone in its batch, and a flush in the next: nothing is ever emitted |
| `Datagrams.SetOrderIrrelevant` | crates/netflow-core/src/decode/ipfix.rs:63-107 | Two datagrams with equal headers, equal template Sets in order and equal Data Sets in order give the same rows and cache however the Sets interleave |
| `Datagrams.ReachesTheEngineIff` | crates/netflow-core/src/decode/v9.rs:32-65 | A v9 or IPFIX datagram reaches the template engine exactly when its format is accepted, its header is whole and its region splits |
| `Datagrams.SoundReachesTheEngine` | crates/netflow-core/src/wellformed.rs:41-102 | A sound v9 datagram of an accepted format always reaches the template engine; a sound IPFIX one exactly when whatever follows its declared length splits |
| `Datagrams.IpfixDatagramRoundTrip` | crates/netflow-core/src/fixtures.rs:325-340 | A printed IPFIX datagram with a template or options template and its records decodes, from raw bytes, to those records with the header's context and the forced or printed domain (options records only if the mode keeps them); in a quiet cache its rows are exactly these, then those of the Data Sets that waited for its template, of which none is left |
| `Datagrams.V9DatagramRoundTrip` | crates/netflow-core/src/fixtures.rs:210-223 | The same for v9, with the header uptime in the context |
| `Datagrams.EnterpriseDatagram` | crates/netflow-core/src/decode/record.rs:187-194 | A printed IPFIX datagram of enterprise fields, whatever their element ids: one row per record, every value raw under its registry name, no column filled |
| `Datagrams.ScopeRows` | crates/netflow-core/src/decode/v9.rs:14-16 | The scope fields of a printed v9 options template are kept raw, none taken for the element of its number |
| `Scan.FrameBodiesSmall` | crates/netflow-core/src/decode/ipfix.rs:115-126 | Every Set body of an accepted datagram is under 65536 bytes, so the 32-bit casts of its length are exact |
| `History.RunIsTouches` | crates/netflow-core/src/decode/mod.rs:84-166 | The entries after any run are those of what its steps define and use, each at the step's own time |
| `History.ScanEntryMatchesHistory` | crates/netflow-core/src/cache.rs:134-172 | In any run, an entry cached without a break since it was learned has the last layout defined, the time of the step that introduced it, the number of uses since, and the time of the latest step that touched it |
| `History.DefinitionStamps` | crates/netflow-core/src/decode/v9.rs:160-177 | A key a datagram defines, if cached afterwards, was last seen at the datagram's time; if it was not cached before, first seen then too, and used once per Data Set the datagram brought for it and once more if some were waiting |
| `History.LatestDefinitionSurvives` | crates/netflow-core/src/cache.rs:146-161 | A definition later than every other entry's last touch survives its own upsert if the cap allows any entry |
| `Projection.MirrorFreezesStatistics` | crates/netflow-worker/src/state.rs:41-47 | At any caps, a mirrored key that is still there has the scan's layout and last-seen time; its use count and first-seen time are the projection's own exactly when the projection held the key at its turn, else the scan's |
| `Projection.MirrorWithRoom` | crates/netflow-worker/src/state.rs:41-47 | With room for both, mirroring evicts nothing, so what the projection holds stays frozen |
| `Projection.MirrorKeepsBuffer` | crates/netflow-worker/src/state.rs:41-47 | Mirroring leaves the projection's buffer, byte counter and caps alone |
| `CacheSpec.EvictKeepsYoungest` | crates/netflow-core/src/cache.rs:146-161 | From any map, the entries that stay are those whose rank in (last-seen, key) order is high enough, and as many as bring the count, cut to 32 bits, down to the cap |
| `CacheSpec.EvictMeetsCapIff` | crates/netflow-core/src/cache.rs:146-161 | The cap holds after eviction exactly when fewer than 2^32 entries went in, and then the smaller of count and cap stay |
| `CacheSpec.VictimsAreOlder` | crates/netflow-core/src/cache.rs:146-161 | Every evicted entry is older than every surviving one, ties broken by map order |
| `CacheSpec.EvictMissesWrappedCount` | crates/netflow-core/src/cache.rs:148 | At 2^32 entries the cast count is zero and nothing is evicted |
| `CacheSpec.EntryMatchesHistory` | crates/netflow-core/src/cache.rs:137-172 | Through any operations on this and other keys, an entry that stays cached agrees with the history of its key |
| `CacheSpec.UpsertKeepsValid` | crates/netflow-core/src/cache.rs:137-144 | An upsert keeps the caps and the byte accounting |
| `CacheSpec.PushKeepsValid` | crates/netflow-core/src/cache.rs:183-191 | In a valid state the acceptance test is exactly the sum against the cap and the counter grows by exactly the payload: no cast or sum wraps |
| `CacheSpec.TakeKeepsValid` | crates/netflow-core/src/cache.rs:195-200 | Taking a key's records frees exactly their bytes; the saturating subtraction never saturates |
| `CacheSpec.PushWrapsAtLargestCap` | crates/netflow-core/src/cache.rs:184-188 | The counter stays accurate unless the cap is 2^32 - 1 and the sum passes it |
| `CacheSpec.CounterWrapsToZero` | crates/netflow-core/src/cache.rs:184-188 | A state with the largest cap in which one more Data Set of 2^15 bytes takes the counter to zero |
| `CacheSpec.RehydrateIdentityIff` | crates/netflow-core/src/cache.rs:224-267 | Serializing and rebuilding gives the same cache exactly when the byte counter was accurate |
| `CacheSpec.CollectPairs` | crates/netflow-core/src/cache.rs:225-252 | Flattening a map to ordered pairs and collecting them back is the identity |
| `Cache.TemplateCache.constructor` | crates/netflow-core/src/cache.rs:117-132 | A new cache is the empty state with the default caps |
| `Cache.TemplateCache.Insert` | crates/netflow-core/src/cache.rs:137-144 | Replaces the layout, keeps first-seen time and use count of an old one, then evicts |
| `Cache.TemplateCache.FindVictim` | crates/netflow-core/src/cache.rs:149-154 | Returns the oldest entry, the first in map order among equals |
| `Cache.TemplateCache.EvictIfNeeded` | crates/netflow-core/src/cache.rs:147-161 | The loop leaves the specified survivors |
| `Cache.TemplateCache.UseTemplate` | crates/netflow-core/src/cache.rs:164-172 | Bumps use count and last-seen time of a known entry and returns it; otherwise changes nothing |
| `Cache.TemplateCache.PushPending` | crates/netflow-core/src/cache.rs:183-191 | Appends the record and counts its bytes, or refuses and changes nothing |
| `Cache.TemplateCache.TakePending` | crates/netflow-core/src/cache.rs:195-200 | Returns a key's records in arrival order and removes them |
| `Cache.TemplateCache.PendingKeys` | crates/netflow-core/src/cache.rs:203-205 | Lists the waiting keys in map order |
| `Cache.TemplateCache.DrainPending` | crates/netflow-core/src/cache.rs:209-212 | Returns everything buffered in map order and leaves nothing |
| `Cache.TemplateCache.Serialize` | crates/netflow-core/src/cache.rs:224-240 | Flattens both maps to ordered pairs, with the caps |
| `Cache.TemplateCache.Rehydrate` | crates/netflow-core/src/cache.rs:244-267 | Rebuilds the maps and recounts the buffered bytes in 32 bits; an empty or corrupt token gives a fresh cache |
| `KeyOrder.ListKeys` | crates/netflow-core/src/cache.rs:63-68 | Selection lists a key set in the derived order of exporter, domain and id |
| `KeyOrder.IncreasingUnique` | crates/netflow-core/src/cache.rs:63-68 | The ordered listing of a key set is the only increasing one |
| `KeyOrder.FieldOrder` | crates/netflow-core/src/cache.rs:63-68 | Exporters decide first, then domains, then template ids |
| `KeyOrder.StringOrder` | crates/netflow-core/src/cache.rs:63-68 | Exporters compare at the first character that differs, and a prefix comes first |
| `Decoder.LearnSets` | crates/netflow-core/src/decode/ipfix.rs:63-70 | The first pass folds all template definitions of the datagram into the cache, in order |
| `Decoder.ArriveSet` | crates/netflow-core/src/decode/v9.rs:79-113 | One Data Set is decoded against the bumped layout, buffered with its header context, or refused with one row |
| `Decoder.ArriveSets` | crates/netflow-core/src/decode/ipfix.rs:72-107 | The second pass treats the Data Sets in order |
| `Decoder.DecodeSets` | crates/netflow-core/src/decode/v9.rs:24-115 | Header, splitting and both passes, with the two error rows |
| `Decoder.RetryOne` | crates/netflow-core/src/decode/mod.rs:145-163 | A known key is used once and its buffered records decoded in arrival order against the bumped layout; an unknown key is left alone |
| `Decoder.RetryPending` | crates/netflow-core/src/decode/mod.rs:142-166 | Every waiting key whose template is known is used once, drained and decoded in arrival order, keys in map order |
| `Decoder.Dispatch` | crates/netflow-core/src/decode/mod.rs:90-131 | Version dispatch under the accepted formats |
| `Decoder.DecodeOne` | crates/netflow-core/src/decode/mod.rs:84-138 | One datagram and the retry after it, rows and cache both |
| `Decoder.FlushKey` | crates/netflow-core/src/decode/mod.rs:173-194 | One missing-template row per buffered record of a key |
| `Decoder.FlushAll` | crates/netflow-core/src/decode/mod.rs:171-196 | The flush drains the buffer and reports every record, keys in map order |
| `Decoder.ScanState.LoadCache` | crates/netflow-worker/src/state.rs:21-31 | No storage, an empty or a corrupt token give the empty cache, otherwise the stored one is rebuilt |
| `Decoder.ScanState.StoreCache` | crates/netflow-worker/src/state.rs:35-49 | Stores the cache and mirrors its entries, in key order, into the projection; does nothing without storage |
| `Decoder.ScanState.Process` | crates/netflow-worker/src/table_in_out/flows.rs:110-148 | A batch loads, decodes its datagrams in order, skips missing ones, and stores and mirrors the cache |
| `Decoder.StepsOfPresent` | crates/netflow-worker/src/table_in_out/flows.rs:129-146 | The steps of a batch are its present datagrams, all of them, in order |
| `Decoder.ScanState.Finish` | crates/netflow-worker/src/table_in_out/flows.rs:154-162 | The end of input loads, flushes, and stores and mirrors the cache |
| `Templates.TemplateRoundTrip` | crates/netflow-core/src/decode/ipfix.rs:131-206 | Printing any list of templates and parsing gives the list back, in all four dialects, with any ignorable padding: every field with the printed element, enterprise number and length and the registry's name for them, scope fields first and marked, ids, kinds and scope counts too |
| `Templates.CutTemplateIsNotLearned` | crates/netflow-core/src/decode/v9.rs:150-161 | A template Set cut anywhere inside a template, in any dialect: the templates before it are learned, the cut one is not |
| `Templates.OptionLengthsRoundDown` | crates/netflow-core/src/decode/v9.rs:194-195 | Scope and option lengths that are no multiple of four are rounded down |
| `Templates.WithdrawalIsIgnored` | crates/netflow-core/src/decode/ipfix.rs:143-146 | In a Template or Options Template Set, a withdrawal ends the Set: templates before it are learned, nothing is removed, nothing after it is read |
| `Templates.ParseTemplates` | crates/netflow-core/src/decode/v9.rs:140-179 | The parsing loop leaves the cache as folding an upsert over the parsed definitions does |
| `Templates.ReadFields` | crates/netflow-core/src/decode/ipfix.rs:155-178 | Reads a field list through the cursor, enterprise numbers included, or fails on underrun |
| `Templates.ReadIpfix` | crates/netflow-core/src/decode/ipfix.rs:140-181 | One IPFIX template record |
| `Templates.ReadV9` | crates/netflow-core/src/decode/v9.rs:148-162 | One v9 template record |
| `Templates.ReadV9Options` | crates/netflow-core/src/decode/v9.rs:190-222 | One v9 options template record, scope fields first |
| `DataSet.DataRoundTrip` | crates/netflow-core/src/decode/record.rs:84-177 | Printed records, with short or long length prefixes, decode to one row each, built from the original field bytes |
| `DataSet.SliceIff` | crates/netflow-core/src/decode/record.rs:154-177 | A record slices exactly when its bytes begin with some printed record |
| `DataSet.CutRecordIsReported` | crates/netflow-core/src/decode/record.rs:118-134 | After printed records, bytes of at least the fixed part that begin with no whole record give one row that reports the truncation under the context, and nothing more |
| `DataSet.ZeroSizeRecords` | crates/netflow-core/src/decode/record.rs:135-138 | A layout whose records take no bytes gives one row for any non-empty payload, and stops |
| `DataSet.PaddingInvisibleIff` | crates/netflow-core/src/decode/record.rs:97-114 | Trailing bytes add no row exactly when there are none or fewer than the fixed part of a record |
| `DataSet.LegalPaddingCanTruncate` | crates/netflow-core/src/decode/record.rs:97-134 | A padding shorter than the smallest record that yields a truncation row |
| `DataSet.FixedSlicingIsDivision` | crates/netflow-core/src/decode/record.rs:93-137 | A fixed layout of length L gives payload / L rows, row i from bytes iL to iL + L, remainder ignored, none truncated |
| `DataSet.RowsBounded` | crates/netflow-core/src/decode/record.rs:104-137 | For any layout, at most one row per payload byte, and only the last can be a truncation notice |
| `DataSet.ReadVarlen` | crates/netflow-core/src/decode/record.rs:170-177 | Reads the one-byte or three-byte length prefix or fails on underrun |
| `DataSet.DecodeOneRecord` | crates/netflow-core/src/decode/record.rs:140-166 | Slices and maps one record, or fails where slicing fails |
| `DataSet.DecodePayload` | crates/netflow-core/src/decode/record.rs:84-137 | The record loop gives the specified rows and terminates on zero-size records |
| `Fields.RowContents` | crates/netflow-core/src/decode/record.rs:180-237 | For every template and field order, the raw fields are the unmapped fields in order with their bytes, and each counter is the last primary value or else the first alternative |
| `Fields.RowColumns` | crates/netflow-core/src/decode/record.rs:196-261 | Every other column holds the last value given for it; flow times fall back to uptime offsets when the header allows |
| `Fields.RowIdentity` | crates/netflow-core/src/decode/record.rs:141-149 | A row carries its context unchanged and one note if an unknown enterprise element occurs |
| `Fields.ScaledTimeExact` | crates/netflow-core/src/decode/record.rs:229-232 | Scaling a timestamp is exact if and only if the product fits 64 signed bits |
| `Fields.ScaledTimeWraps` | crates/netflow-core/src/decode/record.rs:229-232 | The last second and millisecond counts that scale exactly, and the first that do not |
| `Fields.StartTimeExactIff` | crates/netflow-core/src/decode/record.rs:229-232 | A record with a start time in milliseconds gets exactly that time if and only if the product fits |
| `Fields.LateStartReadsAsEarly` | crates/netflow-core/src/decode/record.rs:229-232 | The first value whose product does not fit gives a start time before 1970 |
| `Fields.NtpIsFloor` | crates/netflow-core/src/decode/record.rs:265-274 | The result is the exact floor of the 64-bit fixed-point time in microseconds, shifted to 1970 |
| `Fields.NtpMonotone` | crates/netflow-core/src/decode/record.rs:265-274 | Later NTP times never map to earlier ones |
| `Fields.BootRelativeExact` | crates/netflow-core/src/decode/record.rs:247-260 | With header-sized inputs uptime arithmetic does not wrap |
| `Framing.FramingRoundTrip` | crates/netflow-core/src/fixtures.rs:220-223 | Splitting printed Sets with a tail under four bytes gives them back |
| `Framing.SplitIsExact` | crates/netflow-core/src/decode/ipfix.rs:113-128 | An accepted region is exactly its Sets, printed, and its tail |
| `Framing.SplitFlowsets` | crates/netflow-core/src/decode/v9.rs:119-137 | The v9 loop computes the split or fails |
| `Framing.SplitIpfixSets` | crates/netflow-core/src/decode/ipfix.rs:113-128 | The IPFIX loop computes the same split or fails in the same cases |
| `WellFormed.ValidateSets` | crates/netflow-core/src/wellformed.rs:105-132 | Sound, truncated or overrun exactly as the splitter accepts with no tail, accepts with one, or refuses |
| `WellFormed.ValidateV5` | crates/netflow-core/src/wellformed.rs:58-75 | Sound exactly when the header is whole and decoding yields no truncated row |
| `WellFormed.ValidateV9` | crates/netflow-core/src/wellformed.rs:77-82 | Sound exactly when the decoder's splitter accepts with an empty tail; an overrun when it refuses, too short with a tail |
| `WellFormed.ValidateIpfix` | crates/netflow-core/src/wellformed.rs:84-102 | The same within the declared length; equal to the decoder when that is the datagram's |
| `WellFormed.Validate` | crates/netflow-core/src/wellformed.rs:41-56 | The verdict for each probed version, sound or not, with the one complaint each failure gives |
| `WellFormed.IpfixDecoderReadsOn` | crates/netflow-core/src/decode/ipfix.rs:49 | On a validated datagram the decoder reads the validated Sets and then whatever follows the declared end |
| `WellFormed.IpfixReadsPastTheEnd` | crates/netflow-core/src/decode/ipfix.rs:49 | A sound datagram of 20 bytes with no Set in it, in which the decoder reads one |
| `WellFormed.IpfixAgreesIff` | crates/netflow-core/src/wellformed.rs:92-101 | Decoder and validator see the same Sets exactly when fewer than four bytes follow the declared end |
| `Headers.V9HeaderRoundTrip` | crates/netflow-core/src/decode/header.rs:82-98 | A printed v9 header is probed and read back field for field |
| `Headers.IpfixHeaderRoundTrip` | crates/netflow-core/src/decode/header.rs:100-115 | The same for IPFIX |
| `Headers.V5HeaderRoundTrip` | crates/netflow-core/src/decode/header.rs:61-80 | The same for v5 |
| `Headers.SflowHeaderRoundTrip` | crates/netflow-core/src/decode/header.rs:117-142 | The same for sFlow, with either agent address and the sample count capped at 16 bits |
| `Headers.ProbeIff` | crates/netflow-core/src/decode/header.rs:20-48 | Which leading bytes name which format, and no others do |
| `Headers.HeaderWholeIff` | crates/netflow-core/src/decode/header.rs:51-142 | A probed header parses exactly when it is whole |
| `Headers.ReadV9Header` | crates/netflow-core/src/decode/header.rs:82-98 | The cursor parser agrees with fixed offsets, failing on any short header |
| `Headers.ReadIpfixHeader` | crates/netflow-core/src/decode/header.rs:100-115 | The same for IPFIX |
| `Headers.ReadV5Header` | crates/netflow-core/src/decode/header.rs:61-80 | The same for v5 |
| `Headers.ReadSflowHeader` | crates/netflow-core/src/decode/header.rs:117-142 | The same for sFlow |
| `V5.DatagramRoundTrip` | crates/netflow-core/src/fixtures.rs:51-128 | A printed v5 datagram decodes to one row per declared record, in order, every column that of the record and the header; a missing record is reported under the header; what follows does not matter |
| `V5.RecordRoundTrip` | crates/netflow-core/src/decode/v5.rs:57-125 | Every column of a printed v5 record comes back, with the exporter, version, engine, time and sequence of its header |
| `V5.RecordsOf` | crates/netflow-core/src/decode/v5.rs:34-54 | One row per record, and one truncation notice, last, exactly when the declared count does not fit |
| `V5.SameTimesAsV9` | crates/netflow-core/src/decode/v5.rs:25-28 | Equal header times and uptime offsets give equal, unwrapped flow times in v5 and v9 |
| `V5.DecodeDatagram` | crates/netflow-core/src/decode/v5.rs:12-55 | The counted loop gives the specified rows |
| `Inet.AddressRoundTrip` | crates/netflow-core/src/inet.rs:43-95 | Decoding inverts encoding for every address |
| `Inet.StoredValue` | crates/netflow-core/src/inet.rs:43-63 | The stored cell has family 1 or 2, the given mask, and the IPv4 number, or the IPv6 number less 2^127 |
| `Inet.StoredOrder` | crates/netflow-core/src/inet.rs:53-61 | Signed order of stored cells is unsigned order of addresses |
| `Inet.HostCells` | crates/netflow-core/src/inet.rs:66-83 | Wire bytes of the right length, and only those, become a full-width host cell that reads back as them |
| `Wire.ComputeBeUint` | crates/netflow-core/src/normalize.rs:116-122 | The shifting loop computes the positional value of at most eight bytes |
| `Wire.BeUintIgnoresLeadingZeros` | crates/netflow-core/src/normalize.rs:116-122 | Reduced-size encodings of a value read alike up to eight bytes |
| `Wire.BeUintInvertsEncoding` | crates/netflow-core/src/normalize.rs:116-122 | Every value is read back from its encoding in up to eight bytes |
| `Wire.BeUintReadsEight` | crates/netflow-core/src/normalize.rs:116-122 | Bytes after the eighth do not matter |
| `Wire.Cursor.Take` | crates/netflow-core/src/buf.rs:35-42 | Takes the next bytes, or fails and moves nothing |
| `Wire.Cursor.Peek` | crates/netflow-core/src/buf.rs:45-50 | Looks at the next bytes without moving |
| `Wire.Cursor.ReadU16` | crates/netflow-core/src/buf.rs:56-58 | Reads two bytes big-endian, or fails and moves nothing |
| `Wire.Cursor.ReadU32` | crates/netflow-core/src/buf.rs:60-63 | Reads four bytes big-endian, or fails and moves nothing |
| `Wire.Cursor.Skip` | crates/netflow-core/src/buf.rs:71-73 | A failed skip moves nothing |

## Left out

- sFlow sample, Ethernet, IP and TCP parsing: stateless; the sFlow decoder is a parameter (`Externals.sflow`), and only that it leaves the cache alone is used.
- The element registry: name and type of an element are a parameter (`Externals.resolve`), a function of enterprise number and id.
- The JSON text of the serialized cache: modelled at the level of its pair lists; the text is taken as a lossless codec, and a stored token as empty, corrupt or such a text.
- Storage is two keys, one per scan and one for the process, read and written without interference from other workers.
- Arrow columns, SQL bindings, catalog metadata, transports and packaging: column plumbing and I/O.
- Rendering of addresses and diagnostics as text: diagnostics are a datatype, a row's joined notes a list of them.
- The clock: the time of each step is an arbitrary input, with no order assumed.
- The version text of a buffered record: a datatype, so the fallback of an unknown text to v9 appears only as the branch for every version but IPFIX.
- The three template-parsing loops share one method here; they differ in the record they read and in whether zeros ahead end them, and both differences are kept.
- A row under construction is a value that each field replaces, not an object updated in place; the source has no aliasing of rows to lose.
- A worker's `u16` and `u32` fields are bounded integers; the registry's element types are carried as text and not interpreted.

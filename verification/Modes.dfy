/** What `flows-only` does to a run: it empties the rows of Options layouts, and changes nothing else. */
module Modes {
  import opened Wire
  import opened Flow
  import opened KeyOrder
  import opened CacheSpec
  import opened DataSet
  import opened Headers
  import opened Framing
  import opened Templates
  import opened Scan
  import opened Truth

  /** The same step with every row wanted. */
  function InAll(s: Step): Step {
    if s.Datagram? then Datagram(s.input.(opts := s.input.opts.(mode := All))) else s
  }

  function AllInAll(steps: seq<Step>): seq<Step> {
    if steps == [] then [] else [InAll(steps[0])] + AllInAll(steps[1..])
  }

  /** A Data Set decoded against an Options layout. */
  predicate OptionsRows(e: Event, h: Layouts) {
    e.Settled? && (e.fate.Decoded? || e.fate.Retried?) && e.item.key in h && h[e.item.key].kind.Options?
  }

  /** `e` is `full` with the rows emptied if they are Options rows and the mode drops those. */
  predicate Muted(e: Event, full: Event, h: Layouts, drops: bool) {
    match full
    case Direct(_) => e == full
    case Settled(i, fate, rows) => e == Settled(i, fate, if drops && OptionsRows(full, h) then [] else rows)
  }

  predicate AllMuted(es: seq<Event>, full: seq<Event>, h: Layouts, drops: bool) {
    |es| == |full| && forall k :: 0 <= k < |es| ==> Muted(es[k], full[k], h, drops)
  }

  lemma MutedConcat(a: seq<Event>, x: seq<Event>, b: seq<Event>, y: seq<Event>, h: Layouts, drops: bool)
    requires AllMuted(a, x, h, drops) && AllMuted(b, y, h, drops)
    ensures AllMuted(a + b, x + y, h, drops)
  {
    hide Muted;
  }

  lemma DecodedMuted(i: Item, fate: Fate, e: TemplateEntry, ctx: Ctx, h: Layouts, drops: bool)
    requires fate.Decoded? || fate.Retried?
    requires i.key in h && h[i.key] == Layout(e.kind, e.fields)
    ensures Muted(Settled(i, fate, DecodeWith(e, i.rec.payload, ctx, drops)),
              Settled(i, fate, DecodeWith(e, i.rec.payload, ctx, false)), h, drops)
  {
    hide DecodeRecords;
  }

  lemma ArriveMuted(c: CacheState, f: Frame, s: WireSet, now: i64, h: Layouts, drops: bool)
    requires Current(c.entries, h)
    ensures var o, full := Arrive(c, f, s, now, drops), Arrive(c, f, s, now, false);
      && o.cache == full.cache && Current(o.cache.entries, h) && AllMuted(o.events, full.events, h, drops)
  {
    var key, rec := KeyFor(f, s.id), RecordFor(f, s.body);
    UseIsCurrent(c, h, key, now);
    assert rec.payload == s.body;
    if s.id >= 256 && key in c.entries {
      DecodedMuted(Item(key, rec), Decoded, Use(c, key, now).entries[key], DirectCtx(f, s.id), h, drops);
    }
    hide DecodeWith, DirectCtx, Touch, CanPush, MissingRow, Current, KeyFor, RecordFor;
  }

  lemma {:induction false} ArriveAllMuted(
    c: CacheState, f: Frame, sets: seq<WireSet>, now: i64, h: Layouts, drops: bool)
    requires Current(c.entries, h)
    ensures var o, full := ArriveAll(c, f, sets, now, drops), ArriveAll(c, f, sets, now, false);
      && o.cache == full.cache && Current(o.cache.entries, h) && AllMuted(o.events, full.events, h, drops)
    decreases |sets|
  {
    hide Arrive, Current;
    if sets != [] {
      var one, all := Arrive(c, f, sets[0], now, drops), Arrive(c, f, sets[0], now, false);
      ArriveMuted(c, f, sets[0], now, h, drops);
      ArriveAllMuted(one.cache, f, sets[1..], now, h, drops);
      MutedConcat(one.events, all.events, ArriveAll(one.cache, f, sets[1..], now, drops).events,
        ArriveAll(one.cache, f, sets[1..], now, false).events, h, drops);
      hide AllMuted;
    }
  }

  lemma {:induction false} SettleMuted(
    key: TemplateKey, recs: seq<PendingRecord>, e: TemplateEntry, h: Layouts, drops: bool)
    requires key in h && h[key] == Layout(e.kind, e.fields)
    ensures AllMuted(Settle(key, recs, e, drops), Settle(key, recs, e, false), h, drops)
  {
    hide DecodeWith, DeferredCtx, Muted;
    if recs != [] {
      var i := Item(key, recs[0]);
      DecodedMuted(i, Retried, e, DeferredCtx(i), h, drops);
      SettleMuted(key, recs[1..], e, h, drops);
    }
  }

  lemma RetryKeyMuted(c: CacheState, key: TemplateKey, now: i64, h: Layouts, drops: bool)
    requires Current(c.entries, h)
    ensures var o, full := RetryKey(c, key, now, drops), RetryKey(c, key, now, false);
      && o.cache == full.cache && Current(o.cache.entries, h) && AllMuted(o.events, full.events, h, drops)
  {
    UseIsCurrent(c, h, key, now);
    if key in c.entries {
      var c' := Use(c, key, now);
      SettleMuted(key, WaitingAt(c'.pending, key), c'.entries[key], h, drops);
    }
    hide Settle, Touch, PayloadBytes, Current, Muted;
  }

  lemma {:induction false} RetryMuted(c: CacheState, keys: seq<TemplateKey>, now: i64, h: Layouts, drops: bool)
    requires Current(c.entries, h)
    ensures var o, full := RetryKeys(c, keys, now, drops), RetryKeys(c, keys, now, false);
      o.cache == full.cache && AllMuted(o.events, full.events, h, drops)
    decreases |keys|
  {
    hide RetryKey, Current;
    if keys != [] {
      var one, all := RetryKey(c, keys[0], now, drops), RetryKey(c, keys[0], now, false);
      RetryKeyMuted(c, keys[0], now, h, drops);
      RetryMuted(one.cache, keys[1..], now, h, drops);
      MutedConcat(one.events, all.events, RetryKeys(one.cache, keys[1..], now, drops).events,
        RetryKeys(one.cache, keys[1..], now, false).events, h, drops);
      hide AllMuted;
    }
  }

  /** The decoder for sFlow is outside the model, and so is what it makes of the mode. */
  predicate IsSflow(s: Step) {
    s.Datagram? && Probe(s.input.data) == Some(Sflow5)
  }

  lemma FrameIgnoresMode(i: Input)
    ensures InputFrame(i.(opts := i.opts.(mode := All))) == InputFrame(i)
  {
    hide Probe, ParseHeader, SplitSets;
  }

  lemma DirectIgnoresMode(ext: Externals, c: CacheState, i: Input)
    requires InputFrame(i).None? && Probe(i.data) != Some(Sflow5)
    ensures DecodeByVersion(ext, c, i) == DecodeByVersion(ext, c, i.(opts := i.opts.(mode := All)))
  {
    hide Probe, ParseHeader, SplitSets, V5.Decode, DecodeFrame;
  }

  lemma PassesMuted(ext: Externals, h: Layouts, c: CacheState, i: Input)
    requires Current(c.entries, h) && !IsSflow(Datagram(i))
    ensures var s := Datagram(i);
      var o, full := DecodeByVersion(ext, c, i), DecodeByVersion(ext, c, InAll(s).input);
      && o.cache == full.cache && Current(o.cache.entries, InForce(ext, h, s))
      && AllMuted(o.events, full.events, InForce(ext, h, s), ModeOf(s))
  {
    var j := InAll(Datagram(i)).input;
    ByVersion(ext, c, i);
    ByVersion(ext, c, j);
    FrameIgnoresMode(i);
    hide DecodeByVersion, Current, InputFrame, Probe;
    if InputFrame(i).Some? {
      var f, now := InputFrame(i).value, i.opts.now;
      var defs := DefsOf(ext, f.version, f.sets);
      LearnIsCurrent(c, h, f.exporter, f.domain, defs, now);
      hide Learn, ArriveAll, DefsOf, Redefine, AllMuted;
      ArriveAllMuted(Learn(c, f.exporter, f.domain, defs, now), f, f.sets, now, InForce(ext, h, Datagram(i)),
        ModeOf(Datagram(i)));
    } else {
      DirectIgnoresMode(ext, c, i);
    }
  }

  /** One step in its own mode and in `all`: the same cache, and the same events but for Options rows. */
  lemma StepMuted(ext: Externals, h: Layouts, c: CacheState, s: Step)
    requires Current(c.entries, h)
    ensures var o, full := DoStep(ext, c, s), DoStep(ext, c, InAll(s));
      && o.cache == full.cache
      && (IsSflow(s) || AllMuted(o.events, full.events, InForce(ext, h, s), ModeOf(s)))
  {
    hide OptionsRows;
    match s
    case Datagram(i) =>
      if IsSflow(s) {
        SflowKeeps(ext, c, i);
        SflowKeeps(ext, c, InAll(s).input);
        return;
      }
      var o, full := DecodeByVersion(ext, c, i), DecodeByVersion(ext, c, InAll(s).input);
      PassesMuted(ext, h, c, i);
      hide DecodeByVersion, Current, InForce, RetryKeys, Probe, AllMuted, IsSflow;
      var keys, now := SortedKeys(o.cache.pending.Keys), i.opts.now;
      RetryMuted(o.cache, keys, now, InForce(ext, h, s), ModeOf(s));
      MutedConcat(o.events, full.events, RetryKeys(o.cache, keys, now, ModeOf(s)).events,
        RetryKeys(o.cache, keys, now, false).events, InForce(ext, h, s), ModeOf(s));
    case Rehydrate =>
    case Flush =>
      hide FlushPairs;
      FlushIsMuted(ext, h, c);
  }

  lemma SflowKeeps(ext: Externals, c: CacheState, i: Input)
    requires Probe(i.data) == Some(Sflow5)
    ensures DecodeDatagram(ext, c, i).cache == c
  {
    hide Probe, Retry;
  }

  lemma FlushIsMuted(ext: Externals, h: Layouts, c: CacheState)
    requires Current(c.entries, h)
    ensures AllMuted(DoStep(ext, c, Flush).events, DoStep(ext, c, Flush).events, h, false)
  {
    hide DoStep;
  }

  /** A run and the same run in `all`, step by step. */
  ghost predicate RunMuted(ext: Externals, h: Layouts, c: CacheState, steps: seq<Step>)
    decreases |steps|
  {
    steps == [] ||
    var s := steps[0];
    && (IsSflow(s)
        || AllMuted(DoStep(ext, c, s).events, DoStep(ext, c, InAll(s)).events, InForce(ext, h, s), ModeOf(s)))
    && RunMuted(ext, InForce(ext, h, s), DoStep(ext, c, s).cache, steps[1..])
  }

  /**
   * Over any run, from any cache and with any caps: the modes of the datagrams leave no trace in the cache, at any
   * point, and the events of each step but an sFlow one are those of the same run in `all`, except that the rows of
   * Data Sets decoded or retried against an Options layout are left out by the datagrams that drop them.
   */
  lemma {:induction false} ModesOnlyMute(ext: Externals, h: Layouts, c: CacheState, steps: seq<Step>)
    requires Current(c.entries, h)
    ensures Run(ext, c, steps).cache == Run(ext, c, AllInAll(steps)).cache
    ensures RunMuted(ext, h, c, steps)
    decreases |steps|
  {
    hide DoStep, Current, InForce, AllMuted, IsSflow, InAll;
    if steps != [] {
      StepMuted(ext, h, c, steps[0]);
      StepIsTruthful(ext, h, c, steps[0]);
      ModesOnlyMute(ext, InForce(ext, h, steps[0]), DoStep(ext, c, steps[0]).cache, steps[1..]);
      assert AllInAll(steps)[1..] == AllInAll(steps[1..]);
      hide StepTruthful;
    }
  }

  /** `auto` is `all` under another name. */
  lemma AutoIsAll(ext: Externals, c: CacheState, i: Input)
    requires i.opts.mode == Auto
    ensures DecodeDatagram(ext, c, i) == DecodeDatagram(ext, c, InAll(Datagram(i)).input)
  {
    var j := InAll(Datagram(i)).input;
    FrameIgnoresMode(i);
    ByVersion(ext, c, i);
    ByVersion(ext, c, j);
    if InputFrame(i).None? {
      SameWithoutFrame(ext, c, i);
    }
    hide Probe, DecodeByVersion, InputFrame, Retry;
  }

  lemma SameWithoutFrame(ext: Externals, c: CacheState, i: Input)
    requires i.opts.mode == Auto && InputFrame(i).None?
    ensures DecodeByVersion(ext, c, i) == DecodeByVersion(ext, c, InAll(Datagram(i)).input)
  {
    hide Probe, ParseHeader, SplitSets, V5.Decode, DecodeFrame;
  }

  /** A step in `flows-only` leaves no row of an Options layout. */
  lemma FlowsOnlyDropsOptions(ext: Externals, h: Layouts, c: CacheState, i: Input, e: Event)
    requires Current(c.entries, h) && i.opts.mode == FlowsOnly
    requires e in DecodeDatagram(ext, c, i).events && OptionsRows(e, InForce(ext, h, Datagram(i)))
    ensures e.rows == []
  {
    StepIsTruthful(ext, h, c, Datagram(i));
    hide DecodeDatagram, Current, InForce, RoomAfter, DecodeRecords, DeferredCtx;
  }
}

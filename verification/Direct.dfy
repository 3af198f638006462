/** Datagrams that never reach the template engine: what each of them emits, column by column. */
module Direct {
  import opened Wire
  import opened Flow
  import opened CacheSpec
  import opened Headers
  import opened Framing
  import opened Scan
  import opened Isolation
  import opened Datagrams
  import V5

  /** The formats an entry point takes. */
  function Formats(r: Restrict): set<Version> {
    match r
    case Any => {NetflowV5, NetflowV9, Ipfix, Sflow5}
    case NetflowOnly => {NetflowV5, NetflowV9}
    case IpfixOnly => {Ipfix}
    case SflowOnly => {Sflow5}
  }

  lemma AcceptsIff(r: Restrict, v: Version)
    ensures r.Accepts(v) <==> v in Formats(r)
  {
  }

  /** The rows of one step, and that it leaves the cache alone. */
  ghost predicate Emits(ext: Externals, c: CacheState, i: Input, rows: seq<FlowRecord>) {
    DecodeDatagram(ext, c, i).cache == c && RowsOf(DecodeDatagram(ext, c, i).events) == rows
  }

  /** From a quiet cache, a datagram without usable Sets emits the rows of its own branch. */
  lemma EmitsDirect(ext: Externals, c: CacheState, i: Input, rows: seq<FlowRecord>)
    requires Valid(c) && Quiet(c) && InputFrame(i).None?
    requires DecodeByVersion(ext, EmptyCache(), i).events == [Event.Direct(rows)]
    ensures Emits(ext, c, i, rows)
  {
    UnframedIsStateless(ext, c, i);
    var es := [Event.Direct(rows)];
    assert es[1..] == [];
    assert RowsOf(es) == rows + RowsOf([]);
    hide DecodeDatagram, DecodeByVersion, InputFrame;
  }

  /** One row that reports `d` and nothing else. */
  ghost predicate OnlyReports(
    ext: Externals, c: CacheState, i: Input, version: Option<Version>, domain: u32, exportTime: Option<i64>,
    sequence: Option<u64>, d: Diag)
  {
    exists r :: Emits(ext, c, i, [r]) && Reports(r, i.opts.exporter, version, domain, exportTime, sequence, d)
  }

  lemma OneReport(
    ext: Externals, c: CacheState, i: Input, version: Option<Version>, domain: u32, exportTime: Option<i64>,
    sequence: Option<u64>, d: Diag)
    requires Valid(c) && Quiet(c) && InputFrame(i).None?
    requires DecodeByVersion(ext, EmptyCache(), i).events
          == [Event.Direct([Diagnostic(i.opts.exporter, version, domain, exportTime, sequence, d)])]
    ensures OnlyReports(ext, c, i, version, domain, exportTime, sequence, d)
  {
    var r := Diagnostic(i.opts.exporter, version, domain, exportTime, sequence, d);
    EmitsDirect(ext, c, i, [r]);
    DiagnosticReports(i.opts.exporter, version, domain, exportTime, sequence, d);
    hide Emits, Reports, Diagnostic, DecodeByVersion, InputFrame;
  }

  /** Bytes that are no flow datagram give one row that says so. */
  lemma NotAFlow(ext: Externals, c: CacheState, i: Input)
    requires Valid(c) && Quiet(c) && Probe(i.data).None?
    ensures OnlyReports(ext, c, i, None, 0, None, None, NotAFlowDatagram)
  {
    hide Probe, OnlyReports;
    OneReport(ext, c, i, None, 0, None, None, NotAFlowDatagram);
  }

  /** A format the entry point does not take gives one row that names it; any other is decoded as under `Any`. */
  lemma NotAccepted(ext: Externals, c: CacheState, i: Input)
    requires Valid(c) && Quiet(c) && Probe(i.data).Some?
    ensures var v := Probe(i.data).value;
      if v in Formats(i.restrict)
      then DecodeDatagram(ext, c, i) == DecodeDatagram(ext, c, i.(restrict := Any))
      else OnlyReports(ext, c, i, Some(v), 0, None, None, NotAcceptedHere(v))
  {
    var v := Probe(i.data).value;
    AcceptsIff(i.restrict, v);
    AcceptsIff(Any, v);
    hide Probe, OnlyReports, V5.Decode, FrameOf, DecodeFrame, Retry;
    if v !in Formats(i.restrict) {
      OneReport(ext, c, i, Some(v), 0, None, None, NotAcceptedHere(v));
    }
  }

  /** An sFlow datagram gives exactly the rows of the sFlow decoder. */
  lemma SflowRows(ext: Externals, c: CacheState, i: Input)
    requires Valid(c) && Quiet(c) && Probe(i.data) == Some(Sflow5) && Sflow5 in Formats(i.restrict)
    ensures Emits(ext, c, i, ext.sflow(i.data, i.opts.exporter, i.opts.mode == FlowsOnly))
  {
    AcceptsIff(i.restrict, Sflow5);
    hide Probe, Emits;
    EmitsDirect(ext, c, i, ext.sflow(i.data, i.opts.exporter, i.opts.mode == FlowsOnly));
  }

  /** A v9 or IPFIX datagram shorter than its header gives one row that says so, under no domain. */
  lemma ShortHeader(ext: Externals, c: CacheState, i: Input)
    requires Valid(c) && Quiet(c) && Probe(i.data) in {Some(NetflowV9), Some(Ipfix)}
    requires Probe(i.data).value in Formats(i.restrict)
    requires |i.data| < if Probe(i.data) == Some(NetflowV9) then 20 else 16
    ensures OnlyReports(ext, c, i, Probe(i.data), 0, None, None, BadHeader(Probe(i.data).value))
  {
    var v := Probe(i.data).value;
    AcceptsIff(i.restrict, v);
    HeaderWholeIff(i.data);
    hide Probe, OnlyReports, ParseHeader;
    OneReport(ext, c, i, Some(v), 0, None, None, BadHeader(v));
  }

  /** One whose Sets do not split gives one row that says so, under its header and the domain it counts under. */
  lemma BadRegion(ext: Externals, c: CacheState, i: Input, h: ExportHeader)
    requires Valid(c) && Quiet(c) && Probe(i.data) in {Some(NetflowV9), Some(Ipfix)}
    requires Probe(i.data).value in Formats(i.restrict) && ParseHeader(i.data) == Some(h)
    requires var n := if Probe(i.data) == Some(NetflowV9) then 20 else 16;
      |i.data| >= n && SplitSets(i.data[n..]).None?
    ensures h.domain.Some?
    ensures OnlyReports(ext, c, i, Probe(i.data), ScopeDomain(i.opts, h.domain.value), h.exportTime, h.sequence,
              BadSets(Probe(i.data).value))
  {
    var v := Probe(i.data).value;
    AcceptsIff(i.restrict, v);
    assert h.domain.Some?;
    hide Probe, OnlyReports, ParseHeader, SplitSets;
    OneReport(ext, c, i, Some(v), ScopeDomain(i.opts, h.domain.value), h.exportTime, h.sequence, BadSets(v));
  }

  /**
   * A printed v5 datagram, through the entry point: one row per record, in order, as many as the header declares, with
   * every column of the record and of the header; one row more that reports the truncation if there are too few.
   */
  lemma V5Rows(
    ext: Externals, c: CacheState, opts: Scan.DecodeOptions, restrict: Restrict, fs: seq<V5.Flow5>, tail: bytes,
    count: u16, uptime: u32, seconds: u32, nanos: u32, sequence: u32, engineType: byte, engineId: byte, sampling: u16)
    requires Valid(c) && Quiet(c) && NetflowV5 in Formats(restrict)
    requires count <= |fs| || |tail| < V5.RECORD_LEN
    ensures
      var d := PrintV5Header(count, uptime, seconds, nanos, sequence, engineType, engineId, sampling)
        + (V5.PrintRecords(fs) + tail);
      var o, exported := DecodeDatagram(ext, c, Input(d, opts, restrict)), seconds * 1_000_000 + nanos / 1_000;
      var rows := RowsOf(o.events);
      && o.cache == c && |rows| == (if count <= |fs| then count else |fs| + 1)
      && (forall k :: 0 <= k < count && k < |fs| ==>
            V5.RowOf(rows[k], fs[k], opts.exporter, exported, uptime, sequence, engineId))
      && (count > |fs| ==>
            Reports(rows[|fs|], opts.exporter, Some(NetflowV5), engineId, Some(exported), Some(sequence), Truncated))
  {
    hide PrintV5Header, V5.PrintRecords, V5.Decode, V5.RowOf, Reports, ParseV5, Probe, DecodeDatagram;
    var region := V5.PrintRecords(fs) + tail;
    var d := PrintV5Header(count, uptime, seconds, nanos, sequence, engineType, engineId, sampling) + region;
    AcceptsIff(restrict, NetflowV5);
    V5HeaderRoundTrip(count, uptime, seconds, nanos, sequence, engineType, engineId, sampling, region);
    V5.DatagramRoundTrip(fs, tail, count, uptime, seconds, nanos, sequence, engineType, engineId, sampling,
      opts.exporter);
    EmitsDirect(ext, c, Input(d, opts, restrict), V5.Decode(d, opts.exporter));
    hide RowsOf;
  }

  /** A v5 datagram shorter than its header gives one row that says so. */
  lemma ShortV5Header(ext: Externals, c: CacheState, i: Input)
    requires Valid(c) && Quiet(c) && Probe(i.data) == Some(NetflowV5) && NetflowV5 in Formats(i.restrict)
    requires |i.data| < 22
    ensures OnlyReports(ext, c, i, Some(NetflowV5), 0, None, None, BadHeader(NetflowV5))
  {
    AcceptsIff(i.restrict, NetflowV5);
    HeaderWholeIff(i.data);
    hide Probe, OnlyReports, ParseHeader;
    OneReport(ext, c, i, Some(NetflowV5), 0, None, None, BadHeader(NetflowV5));
  }
}

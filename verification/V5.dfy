/** NetFlow v5: a 24-byte header and fixed 48-byte records. Stateless. */
module V5 {
  import opened Wire
  import opened Inet
  import opened Flow
  import opened Fields
  import opened Headers

  const RECORD_LEN := 48

  function DecodeRecord(b: bytes, exporter: string, h: ExportHeader): FlowRecord
    requires |b| == RECORD_LEN
  {
    var time := (offset: u32) =>
      if h.exportTime.Some? && h.sysUptime.Some?
      then Some(BootRelative(h.exportTime.value, h.sysUptime.value, offset)) else None;
    HeaderRow(exporter, Some(NetflowV5), if h.domain.Some? then h.domain.value else 0, None, h.exportTime, h.sequence)
    .(srcAddr := Inet4(b[0..4]), dstAddr := Inet4(b[4..8]), nextHop := Inet4(b[8..12]),
      inputSnmp := Some(U16(b, 12)), outputSnmp := Some(U16(b, 14)),
      packets := Some(U32(b, 16)), octets := Some(U32(b, 20)),
      flowStart := time(U32(b, 24)), flowEnd := time(U32(b, 28)),
      srcPort := Some(U16(b, 32)), dstPort := Some(U16(b, 34)),
      tcpFlags := Some(b[37]), protocol := Some(b[38]), tos := Some(b[39]),
      srcAs := Some(U16(b, 40)), dstAs := Some(U16(b, 42)),
      srcMask := Some(b[44]), dstMask := Some(b[45]))
  }

  function TruncatedV5(exporter: string, h: ExportHeader): FlowRecord {
    Diagnostic(exporter, Some(NetflowV5), if h.domain.Some? then h.domain.value else 0, h.exportTime, h.sequence,
      Truncated)
  }

  function Records(s: bytes, count: nat, exporter: string, h: ExportHeader): seq<FlowRecord> {
    if count == 0 then []
    else if |s| < RECORD_LEN then [TruncatedV5(exporter, h)]
    else [DecodeRecord(s[..RECORD_LEN], exporter, h)] + Records(s[RECORD_LEN..], count - 1, exporter, h)
  }

  function Count(h: ExportHeader): nat {
    if h.count.Some? then h.count.value else 0
  }

  /** A datagram too short for its header is read from the start: the skip fails without moving. */
  function Region(d: bytes): bytes {
    if |d| < 24 then d else d[24..]
  }

  function Decode(d: bytes, exporter: string): seq<FlowRecord> {
    var h := ParseHeader(d);
    if h.None? then [Diagnostic(exporter, Some(NetflowV5), 0, None, None, BadHeader(NetflowV5))]
    else Records(Region(d), Count(h.value), exporter, h.value)
  }

  method DecodeDatagram(d: bytes, exporter: string) returns (out: seq<FlowRecord>)
    ensures out == Decode(d, exporter)
  {
    hide DecodeRecord, TruncatedV5;
    var h := ParseHeader(d);
    if h.None? {
      return [Diagnostic(exporter, Some(NetflowV5), 0, None, None, BadHeader(NetflowV5))];
    }
    out := [];
    var cur := new Cursor(d);
    var skipped := cur.Skip(24);
    var n := Count(h.value);
    ghost var all := Records(Region(d), n, exporter, h.value);
    for i := 0 to n
      invariant cur.Valid()
      invariant all == out + Records(cur.Rest(), n - i, exporter, h.value)
    {
      ghost var s := cur.Rest();
      var slice := cur.Take(RECORD_LEN);
      if slice.None? {
        return out + [TruncatedV5(exporter, h.value)];
      }
      assert Records(s, n - i, exporter, h.value)
          == [DecodeRecord(slice.value, exporter, h.value)] + Records(cur.Rest(), n - i - 1, exporter, h.value);
      out := out + [DecodeRecord(slice.value, exporter, h.value)];
    }
    assert Records(cur.Rest(), 0, exporter, h.value) == [];
  }

  predicate IsTruncated(r: FlowRecord) {
    Truncated in r.diagnostics
  }

  /** As many rows as records fit, and one truncation notice, last, exactly when the declared count does not fit. */
  lemma {:induction false} RecordsOf(s: bytes, count: nat, exporter: string, h: ExportHeader)
    ensures var rows := Records(s, count, exporter, h);
      if count * RECORD_LEN <= |s|
      then |rows| == count && forall r :: r in rows ==> !IsTruncated(r)
      else |rows| == |s| / RECORD_LEN + 1 && IsTruncated(rows[|rows| - 1])
    decreases count
  {
    hide DecodeRecord, TruncatedV5, IsTruncated;
    if count > 0 {
      if |s| >= RECORD_LEN {
        RecordsOf(s[RECORD_LEN..], count - 1, exporter, h);
        WholeRecord(s[..RECORD_LEN], exporter, h);
      } else {
        NoticeIsTruncated(exporter, h);
      }
    }
  }

  lemma WholeRecord(b: bytes, exporter: string, h: ExportHeader)
    requires |b| == RECORD_LEN
    ensures !IsTruncated(DecodeRecord(b, exporter, h))
  {
    hide Inet4, BootRelative;
  }

  lemma NoticeIsTruncated(exporter: string, h: ExportHeader)
    ensures IsTruncated(TruncatedV5(exporter, h))
  {
  }

  // The printer of the fixtures.

  type quad = b: bytes | |b| == 4 witness [0, 0, 0, 0]

  datatype Flow5 = Flow5(
    src: quad, dst: quad, nextHop: quad, input: u16, output: u16, packets: u32, octets: u32, first: u32, last: u32,
    srcPort: u16, dstPort: u16, tcpFlags: byte, protocol: byte, tos: byte, srcAs: u16, dstAs: u16,
    srcMask: byte, dstMask: byte)

  function PrintHead(f: Flow5): (b: bytes)
    ensures |b| == 32
  {
    f.src + f.dst + f.nextHop + Put16(f.input) + Put16(f.output)
    + Put32(f.packets) + Put32(f.octets) + Put32(f.first) + Put32(f.last)
  }

  function PrintTail(f: Flow5): (b: bytes)
    ensures |b| == 16
  {
    Put16(f.srcPort) + Put16(f.dstPort) + [0, f.tcpFlags, f.protocol, f.tos]
    + Put16(f.srcAs) + Put16(f.dstAs) + [f.srcMask, f.dstMask, 0, 0]
  }

  function PrintRecord(f: Flow5): (b: bytes)
    ensures |b| == RECORD_LEN
  {
    PrintHead(f) + PrintTail(f)
  }

  lemma PrintedHead(f: Flow5, b: bytes)
    requires PrintHead(f) <= b
    ensures (b[0..4], b[4..8], b[8..12]) == (f.src, f.dst, f.nextHop)
    ensures (U16(b, 12), U16(b, 14)) == (f.input, f.output)
    ensures (U32(b, 16), U32(b, 20), U32(b, 24), U32(b, 28)) == (f.packets, f.octets, f.first, f.last)
  {
    var h := PrintHead(f);
    assert h == b[..32];
    assert h[0..4] == f.src && h[4..8] == f.dst && h[8..12] == f.nextHop;
    assert b[0..4] == h[0..4] && b[4..8] == h[4..8] && b[8..12] == h[8..12];
    Read16(b, h[..12], f.input);
    Read16(b, h[..14], f.output);
    Read32(b, h[..16], f.packets);
    Read32(b, h[..20], f.octets);
    Read32(b, h[..24], f.first);
    Read32(b, h[..28], f.last);
    hide U16, U32;
  }

  lemma PrintedTail(f: Flow5, b: bytes)
    requires |b| == 48 && b[32..] == PrintTail(f)
    ensures (U16(b, 32), U16(b, 34)) == (f.srcPort, f.dstPort)
    ensures (b[37], b[38], b[39]) == (f.tcpFlags, f.protocol, f.tos)
    ensures (U16(b, 40), U16(b, 42), b[44], b[45]) == (f.srcAs, f.dstAs, f.srcMask, f.dstMask)
  {
    var t := b[32..];
    assert forall i {:trigger t[i]} :: 0 <= i < 16 ==> t[i] == b[32 + i];
    assert U16(b, 32) == U16(t, 0) && U16(b, 34) == U16(t, 2) && U16(b, 40) == U16(t, 8) && U16(b, 42) == U16(t, 10);
    Read16(t, [], f.srcPort);
    Read16(t, t[..2], f.dstPort);
    Read16(t, t[..8], f.srcAs);
    Read16(t, t[..10], f.dstAs);
    hide U16;
  }

  /** The columns a record fills from its own bytes. */
  predicate Carries(r: FlowRecord, f: Flow5) {
    && r.srcAddr == Some(EncodeIp(V4(f.src))) && r.dstAddr == Some(EncodeIp(V4(f.dst)))
    && r.nextHop == Some(EncodeIp(V4(f.nextHop)))
    && (r.inputSnmp, r.outputSnmp) == (Some(f.input), Some(f.output))
    && (r.packets, r.octets) == (Some(f.packets), Some(f.octets))
    && (r.srcPort, r.dstPort) == (Some(f.srcPort), Some(f.dstPort))
    && (r.tcpFlags, r.protocol, r.tos) == (Some(f.tcpFlags), Some(f.protocol), Some(f.tos))
    && (r.srcAs, r.dstAs, r.srcMask, r.dstMask) == (Some(f.srcAs), Some(f.dstAs), Some(f.srcMask), Some(f.dstMask))
    && r.samplingRate == None && r.direction == None
    && r.diagnostics == [] && r.rawFields == []
  }

  /** Every column of a printed v5 record comes back, the addresses as host cells, with the header's own columns. */
  lemma RecordRoundTrip(f: Flow5, exporter: string, h: ExportHeader)
    ensures var r := DecodeRecord(PrintRecord(f), exporter, h);
      && Carries(r, f)
      && r.exporter == exporter && r.flowVersion == Some(NetflowV5) && r.templateId == None
      && r.domain == (if h.domain.Some? then h.domain.value else 0)
      && r.exportTime == h.exportTime && r.sequence == h.sequence
      && U32(PrintRecord(f), 24) == f.first && U32(PrintRecord(f), 28) == f.last
  {
    var b := PrintRecord(f);
    assert PrintHead(f) <= b && b[32..] == PrintTail(f);
    hide EncodeIp, BootRelative, U16, U32, PrintRecord, PrintHead, PrintTail;
    PrintedHead(f, b);
    PrintedTail(f, b);
  }

  /** A row that says what a printed record and its header say: every column, the times to the microsecond. */
  predicate RowOf(
    r: FlowRecord, f: Flow5, exporter: string, exported: int, uptime: u32, sequence: u32, engineId: byte)
  {
    && Carries(r, f)
    && r.exporter == exporter && r.flowVersion == Some(NetflowV5) && r.templateId == None
    && r.domain == engineId && r.exportTime == Some(exported) && r.sequence == Some(sequence)
    && r.flowStart == Some(exported - uptime * 1_000 + f.first * 1_000)
    && r.flowEnd == Some(exported - uptime * 1_000 + f.last * 1_000)
  }

  lemma PrintedRow(
    f: Flow5, exporter: string, h: ExportHeader, exported: i64, uptime: u32, sequence: u32, engineId: byte)
    requires 0 <= exported <= TWO_32 * 1_000_000 + TWO_32
    requires (h.exportTime, h.sysUptime) == (Some(exported), Some(uptime))
    requires (h.sequence, h.domain) == (Some(sequence), Some(engineId))
    ensures RowOf(DecodeRecord(PrintRecord(f), exporter, h), f, exporter, exported, uptime, sequence, engineId)
  {
    RecordRoundTrip(f, exporter, h);
    BootRelativeExact(exported, uptime, f.first);
    BootRelativeExact(exported, uptime, f.last);
    hide PrintRecord, BootRelative, Carries, Inet4, U16;
  }

  function PrintRecords(fs: seq<Flow5>): bytes {
    if fs == [] then [] else PrintRecord(fs[0]) + PrintRecords(fs[1..])
  }

  /** Printed records come off one by one, and then what follows them is read. */
  lemma {:induction false} RecordsRoundTrip(
    fs: seq<Flow5>, tail: bytes, count: nat, exporter: string, h: ExportHeader)
    requires count <= |fs| || |tail| < RECORD_LEN
    ensures var rows := Records(PrintRecords(fs) + tail, count, exporter, h);
      && |rows| == (if count <= |fs| then count else |fs| + 1)
      && (forall i :: 0 <= i < count && i < |fs| ==> rows[i] == DecodeRecord(PrintRecord(fs[i]), exporter, h))
      && (count > |fs| ==> rows[|fs|] == TruncatedV5(exporter, h))
  {
    hide DecodeRecord, PrintRecord, TruncatedV5;
    var s := PrintRecords(fs) + tail;
    if fs == [] {
      assert s == tail;
    } else if count > 0 {
      assert s[..RECORD_LEN] == PrintRecord(fs[0]) && s[RECORD_LEN..] == PrintRecords(fs[1..]) + tail;
      RecordsRoundTrip(fs[1..], tail, count - 1, exporter, h);
    }
  }

  /**
   * A printed v5 datagram decodes to one row per record, in order, as many as the header declares. If it declares
   * more than are there, one row reports the truncation, under the header; what follows the declared records does
   * not matter.
   */
  lemma DatagramRoundTrip(
    fs: seq<Flow5>, tail: bytes, count: u16, uptime: u32, seconds: u32, nanos: u32, sequence: u32, engineType: byte,
    engineId: byte, sampling: u16, exporter: string)
    requires count <= |fs| || |tail| < RECORD_LEN
    ensures
      var d := PrintV5Header(count, uptime, seconds, nanos, sequence, engineType, engineId, sampling)
        + (PrintRecords(fs) + tail);
      var rows, exported := Decode(d, exporter), seconds * 1_000_000 + nanos / 1_000;
      && |rows| == (if count <= |fs| then count else |fs| + 1)
      && (forall i :: 0 <= i < count && i < |fs| ==>
            RowOf(rows[i], fs[i], exporter, exported, uptime, sequence, engineId))
      && (count > |fs| ==>
            Reports(rows[|fs|], exporter, Some(NetflowV5), engineId, Some(exported), Some(sequence), Truncated))
  {
    hide Records, DecodeRecord, PrintRecord, PrintRecords, Decode, PrintV5Header, RowOf, Reports, TruncatedV5;
    var region, exported := PrintRecords(fs) + tail, seconds * 1_000_000 + nanos / 1_000;
    var h := ExportHeader(5, Some(count), Some(uptime), Some(exported), Some(sequence), Some(engineId));
    RecordsRoundTrip(fs, tail, count, exporter, h);
    TruncatedReports(exporter, h);
    PrintedIsRead(h, region, exporter, count, uptime, seconds, nanos, sequence, engineType, engineId, sampling);
    forall i | 0 <= i < count && i < |fs|
      ensures
        RowOf(DecodeRecord(PrintRecord(fs[i]), exporter, h), fs[i], exporter, exported, uptime, sequence, engineId)
    {
      PrintedRow(fs[i], exporter, h, exported, uptime, sequence, engineId);
    }
  }

  lemma PrintedIsRead(
    h: ExportHeader, region: bytes, exporter: string, count: u16, uptime: u32, seconds: u32, nanos: u32,
    sequence: u32, engineType: byte, engineId: byte, sampling: u16)
    requires h == ExportHeader(5, Some(count), Some(uptime), Some(seconds * 1_000_000 + nanos / 1_000), Some(sequence),
                    Some(engineId))
    ensures
      var d := PrintV5Header(count, uptime, seconds, nanos, sequence, engineType, engineId, sampling) + region;
      Decode(d, exporter) == Records(region, count, exporter, h)
  {
    assert |PrintV5Header(count, uptime, seconds, nanos, sequence, engineType, engineId, sampling)| == 24;
    V5HeaderRoundTrip(count, uptime, seconds, nanos, sequence, engineType, engineId, sampling, region);
    hide Records, ParseV5, PrintV5Header, Probe;
  }

  lemma TruncatedReports(exporter: string, h: ExportHeader)
    ensures Reports(TruncatedV5(exporter, h), exporter, Some(NetflowV5), if h.domain.Some? then h.domain.value else 0,
              h.exportTime, h.sequence, Truncated)
  {
  }

  /**
   * Version 5 and version 9 place flows alike: for equal header times and equal uptime offsets, a v5 record and a
   * v9 record that carries the two uptime elements and no absolute time get the same, unwrapped, times.
   */
  lemma SameTimesAsV9(b: bytes, exporter: string, h: ExportHeader, p: Partial, ctx: Ctx)
    requires |b| == RECORD_LEN
    requires h.exportTime.Some? && h.sysUptime.Some?
    requires 0 <= h.exportTime.value <= TWO_32 * 1_000_000 + TWO_32
    requires ctx.exportTime == h.exportTime && ctx.sysUptime == h.sysUptime
    requires p.row.flowStart == p.row.flowEnd == None
    requires p.startUptime == Some(U32(b, 24)) && p.endUptime == Some(U32(b, 28))
    ensures var (v5, v9) := (DecodeRecord(b, exporter, h), ResolveTimes(p, ctx));
      && v5.flowStart == v9.flowStart == Some(h.exportTime.value - h.sysUptime.value * 1_000 + U32(b, 24) * 1_000)
      && v5.flowEnd == v9.flowEnd == Some(h.exportTime.value - h.sysUptime.value * 1_000 + U32(b, 28) * 1_000)
  {
    BootRelativeExact(h.exportTime.value, h.sysUptime.value, U32(b, 24));
    BootRelativeExact(h.exportTime.value, h.sysUptime.value, U32(b, 28));
    hide BootRelative, Inet4;
  }
}

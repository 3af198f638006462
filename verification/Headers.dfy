/** The version probe and the export headers. */
module Headers {
  import opened Wire
  import opened Flow

  datatype ExportHeader = ExportHeader(
    version: u16,
    count: Option<u16>,
    sysUptime: Option<u32>,
    exportTime: Option<i64>,
    sequence: Option<u64>,
    domain: Option<u32>)

  /** The leading 16 bits name NetFlow and IPFIX; sFlow needs 32 bits and a sane agent address type. */
  function Probe(d: bytes): Option<Version> {
    if |d| < 2 then None
    else
      match U16(d, 0)
      case 5 => Some(NetflowV5)
      case 9 => Some(NetflowV9)
      case 10 => Some(Ipfix)
      case 0 => if |d| >= 8 && U16(d, 2) == 5 && 1 <= U32(d, 4) <= 2 then Some(Sflow5) else None
      case _ => None
  }

  function ParseV5(d: bytes): Option<ExportHeader> {
    if |d| < 22 then None
    else Some(ExportHeader(U16(d, 0), Some(U16(d, 2)), Some(U32(d, 4)),
                Some(U32(d, 8) * 1_000_000 + U32(d, 12) / 1_000), Some(U32(d, 16)), Some(d[21])))
  }

  function ParseV9(d: bytes): Option<ExportHeader> {
    if |d| < 20 then None
    else Some(ExportHeader(U16(d, 0), Some(U16(d, 2)), Some(U32(d, 4)),
                Some(U32(d, 8) * 1_000_000), Some(U32(d, 12)), Some(U32(d, 16))))
  }

  function ParseIpfix(d: bytes): Option<ExportHeader> {
    if |d| < 16 then None
    else Some(ExportHeader(U16(d, 0), None, None,
                Some(U32(d, 4) * 1_000_000), Some(U32(d, 8)), Some(U32(d, 12))))
  }

  /** A failed skip over the agent address leaves too little for the four counters anyway. */
  function ParseSflow(d: bytes): Option<ExportHeader> {
    if |d| < 8 then None
    else
      var agent := U32(d, 4);
      var n: nat := if agent == 1 then 12 else 24;
      if !(1 <= agent <= 2) || |d| < n + 16 then None
      else
        var samples := U32(d, n + 12);
        Some(ExportHeader(5, Some(if samples < TWO_16 then samples else TWO_16 - 1), Some(U32(d, n + 8)), None,
          Some(U32(d, n + 4)), Some(U32(d, n))))
  }

  function ParseHeader(d: bytes): Option<ExportHeader> {
    match Probe(d)
    case None => None
    case Some(NetflowV5) => ParseV5(d)
    case Some(NetflowV9) => ParseV9(d)
    case Some(Ipfix) => ParseIpfix(d)
    case Some(Sflow5) => ParseSflow(d)
  }

  /** The probe, byte by byte. */
  lemma ProbeIff(d: bytes)
    ensures Probe(d) == Some(NetflowV5) <==> |d| >= 2 && d[..2] == [0, 5]
    ensures Probe(d) == Some(NetflowV9) <==> |d| >= 2 && d[..2] == [0, 9]
    ensures Probe(d) == Some(Ipfix) <==> |d| >= 2 && d[..2] == [0, 10]
    ensures Probe(d) == Some(Sflow5)
       <==> |d| >= 8 && d[..4] == [0, 0, 0, 5] && (d[4..8] == [0, 0, 0, 1] || d[4..8] == [0, 0, 0, 2])
  {
    if |d| >= 2 {
      assert d[..2] == [d[0], d[1]];
    }
    if |d| >= 8 {
      assert d[..4] == [d[0], d[1], d[2], d[3]] && d[4..8] == [d[4], d[5], d[6], d[7]];
    }
  }

  /** The bytes a header takes, after which it parses. */
  function WholeHeader(d: bytes, v: Version): nat {
    match v
    case NetflowV5 => 22
    case NetflowV9 => 20
    case Ipfix => 16
    case Sflow5 => if |d| >= 8 && d[7] == 1 then 28 else 40
  }

  /** A probed header parses exactly when it is whole. */
  lemma HeaderWholeIff(d: bytes)
    requires Probe(d).Some?
    ensures ParseHeader(d).Some? <==> |d| >= WholeHeader(d, Probe(d).value)
  {
  }

  // The parsers of the source: one cursor, an early exit at the first failed read.

  method ReadWords(c: Cursor, n: nat) returns (ws: Option<seq<u32>>)
    requires c.Valid()
    modifies c`pos
    ensures c.Valid()
    ensures ws.Some? <==> 4 * n <= |old(c.Rest())|
    ensures ws.Some? ==> |ws.value| == n && c.pos == old(c.pos) + 4 * n
    ensures ws.Some? ==> forall i :: 0 <= i < n ==> ws.value[i] == U32(c.data, old(c.pos) + 4 * i)
  {
    var start := c.pos;
    var got: seq<u32> := [];
    for k := 0 to n
      invariant c.Valid() && |got| == k && c.pos == start + 4 * k
      invariant forall i :: 0 <= i < k ==> got[i] == U32(c.data, start + 4 * i)
    {
      var w := c.ReadU32();
      if w.None? {
        return None;
      }
      got := got + [w.value];
    }
    ws := Some(got);
  }

  method ReadV9Header(d: bytes) returns (h: Option<ExportHeader>)
    ensures h == ParseV9(d)
  {
    var c := new Cursor(d);
    var version := c.ReadU16();
    if version.None? {
      return None;
    }
    var count := c.ReadU16();
    if count.None? {
      return None;
    }
    var ws := ReadWords(c, 4);
    if ws.None? {
      return None;
    }
    var w := ws.value;
    h := Some(ExportHeader(version.value, count, Some(w[0]), Some(w[1] as int * 1_000_000), Some(w[2]), Some(w[3])));
  }

  method ReadIpfixHeader(d: bytes) returns (h: Option<ExportHeader>)
    ensures h == ParseIpfix(d)
  {
    var c := new Cursor(d);
    var version := c.ReadU16();
    if version.None? {
      return None;
    }
    var length := c.ReadU16();
    if length.None? {
      return None;
    }
    var ws := ReadWords(c, 3);
    if ws.None? {
      return None;
    }
    var w := ws.value;
    h := Some(ExportHeader(version.value, None, None, Some(w[0] as int * 1_000_000), Some(w[1]), Some(w[2])));
  }

  method ReadV5Header(d: bytes) returns (h: Option<ExportHeader>)
    ensures h == ParseV5(d)
  {
    var c := new Cursor(d);
    var version := c.ReadU16();
    if version.None? {
      return None;
    }
    var count := c.ReadU16();
    if count.None? {
      return None;
    }
    var ws := ReadWords(c, 4);
    if ws.None? {
      return None;
    }
    var w := ws.value;
    var engineType := c.ReadU8();
    if engineType.None? {
      return None;
    }
    var engineId := c.ReadU8();
    if engineId.None? {
      return None;
    }
    h := Some(ExportHeader(version.value, count, Some(w[0]), Some(w[1] as int * 1_000_000 + w[2] / 1_000), Some(w[3]),
           engineId));
  }

  /** A failed skip moves nothing, and then the counters do not fit either. */
  method ReadSflowHeader(d: bytes) returns (h: Option<ExportHeader>)
    ensures h == ParseSflow(d)
  {
    var c := new Cursor(d);
    var ws := ReadWords(c, 2);
    if ws.None? {
      return None;
    }
    var agent := ws.value[1];
    if agent != 1 && agent != 2 {
      return None;
    }
    var skipped := c.Skip(if agent == 1 then 4 else 16);
    ghost var start := c.pos;
    var counters := ReadWords(c, 4);
    if counters.None? {
      return None;
    }
    var w := counters.value;
    var samples := if w[3] < TWO_16 then w[3] else TWO_16 - 1;
    h := Some(ExportHeader(5, Some(samples), Some(w[2]), None, Some(w[1]), Some(w[0])));
  }

  // Printers, as the fixtures write headers.

  function PrintV9Header(count: u16, uptime: u32, seconds: u32, sequence: u32, source: u32): bytes {
    Put16(9) + Put16(count) + Put32(uptime) + Put32(seconds) + Put32(sequence) + Put32(source)
  }

  function PrintIpfixHeader(length: u16, seconds: u32, sequence: u32, domain: u32): bytes {
    Put16(10) + Put16(length) + Put32(seconds) + Put32(sequence) + Put32(domain)
  }

  function PrintV5Header(
    count: u16, uptime: u32, seconds: u32, nanos: u32, sequence: u32, engineType: byte, engineId: byte,
    sampling: u16): bytes
  {
    Put16(5) + Put16(count) + Put32(uptime) + Put32(seconds) + Put32(nanos) + Put32(sequence)
    + [engineType, engineId] + Put16(sampling)
  }

  function PrintSflowHeader(agent: bytes, subAgent: u32, sequence: u32, uptime: u32, samples: u32): bytes
    requires |agent| == 4 || |agent| == 16
  {
    Put32(5) + Put32(if |agent| == 4 then 1 else 2) + agent
    + Put32(subAgent) + Put32(sequence) + Put32(uptime) + Put32(samples)
  }

  /** The sample count is capped at 16 bits; the address of the agent is skipped. */
  lemma SflowHeaderRoundTrip(
    agent: bytes, subAgent: u32, sequence: u32, uptime: u32, samples: u32, rest: bytes)
    requires |agent| == 4 || |agent| == 16
    ensures var d := PrintSflowHeader(agent, subAgent, sequence, uptime, samples) + rest;
      && Probe(d) == Some(Sflow5)
      && ParseHeader(d) == Some(ExportHeader(5, Some(if samples <= 65_535 then samples else 65_535), Some(uptime), None,
                                  Some(sequence), Some(subAgent)))
  {
    var n, family := |agent| + 8, if |agent| == 4 then 1 else 2;
    var d := PrintSflowHeader(agent, subAgent, sequence, uptime, samples) + rest;
    Read32(d, [], 5);
    assert U16(d, 0) == 0 && U16(d, 2) == 5;
    Read32(d, d[..4], family);
    Read32(d, d[..n], subAgent);
    Read32(d, d[..n + 4], sequence);
    Read32(d, d[..n + 8], uptime);
    Read32(d, d[..n + 12], samples);
    hide U16, U32;
  }

  /** Whatever follows a printed header, it is recognised and read back field for field. */
  lemma V9HeaderRoundTrip(count: u16, uptime: u32, seconds: u32, sequence: u32, source: u32, rest: bytes)
    ensures var d := PrintV9Header(count, uptime, seconds, sequence, source) + rest;
      && Probe(d) == Some(NetflowV9)
      && d[20..] == rest
      && ParseV9(d) == Some(ExportHeader(9, Some(count), Some(uptime), Some(seconds * 1_000_000),
                              Some(sequence), Some(source)))
  {
    var d := PrintV9Header(count, uptime, seconds, sequence, source) + rest;
    Read16(d, [], 9);
    Read16(d, Put16(9), count);
    Read32(d, d[..4], uptime);
    Read32(d, d[..8], seconds);
    Read32(d, d[..12], sequence);
    Read32(d, d[..16], source);
  }

  lemma IpfixHeaderRoundTrip(length: u16, seconds: u32, sequence: u32, domain: u32, rest: bytes)
    ensures var d := PrintIpfixHeader(length, seconds, sequence, domain) + rest;
      && Probe(d) == Some(Ipfix)
      && U16(d, 2) == length
      && d[16..] == rest
      && ParseIpfix(d) == Some(ExportHeader(10, None, None, Some(seconds * 1_000_000), Some(sequence), Some(domain)))
  {
    var d := PrintIpfixHeader(length, seconds, sequence, domain) + rest;
    Read16(d, [], 10);
    Read16(d, Put16(10), length);
    Read32(d, d[..4], seconds);
    Read32(d, d[..8], sequence);
    Read32(d, d[..12], domain);
  }

  lemma V5HeaderRoundTrip(
    count: u16, uptime: u32, seconds: u32, nanos: u32, sequence: u32, engineType: byte, engineId: byte,
    sampling: u16, rest: bytes)
    ensures var d := PrintV5Header(count, uptime, seconds, nanos, sequence, engineType, engineId, sampling) + rest;
      && Probe(d) == Some(NetflowV5)
      && d[24..] == rest
      && ParseV5(d) == Some(ExportHeader(5, Some(count), Some(uptime),
                              Some(seconds * 1_000_000 + nanos / 1_000), Some(sequence), Some(engineId)))
  {
    var d := PrintV5Header(count, uptime, seconds, nanos, sequence, engineType, engineId, sampling) + rest;
    Read16(d, [], 5);
    Read16(d, Put16(5), count);
    Read32(d, d[..4], uptime);
    Read32(d, d[..8], seconds);
    Read32(d, d[..12], nanos);
    Read32(d, d[..16], sequence);
  }

  lemma Read16(d: bytes, before: bytes, v: u16)
    requires before + Put16(v) <= d
    ensures U16(d, |before|) == v
  {
    assert d[|before|..|before| + 2] == Put16(v);
    assert d[|before|] == Put16(v)[0] && d[|before| + 1] == Put16(v)[1];
  }

  lemma Read32(d: bytes, before: bytes, v: u32)
    requires before + Put32(v) <= d
    ensures U32(d, |before|) == v
  {
    var w := Put32(v);
    var t := d[|before|..|before| + 4];
    assert t == w;
    assert t[0] == d[|before|] && t[1] == d[|before| + 1] && t[2] == d[|before| + 2] && t[3] == d[|before| + 3];
    assert U16(d, |before|) == U16(w, 0) && U16(d, |before| + 2) == U16(w, 2);
  }
}

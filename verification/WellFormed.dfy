/** Structural validation of a datagram without decoding it. */
module WellFormed {
  import opened Wire
  import opened Flow
  import opened Headers
  import opened Framing
  import V5

  datatype Kind = TooShort | SetLengthOverrun | BadIpfixSet | ShortRecord | NotAFlow

  datatype Verdict = Sound(version: Version) | Malformed(probed: Option<Version>, kind: Kind)

  /** Walk the Set headers. The verdict is the split seen through its tail. */
  method ValidateSets(data: bytes, version: Version, overrun: Kind) returns (v: Verdict)
    ensures var sp := SplitSets(data);
      v == if sp.None? then Malformed(Some(version), overrun)
           else if sp.value.tail != [] then Malformed(Some(version), TooShort)
           else Sound(version)
  {
    var region := data;
    ghost var done := [];
    ResumeStart(SplitSets(data));
    while region != []
      invariant SplitSets(data) == Resume(done, SplitSets(region))
      decreases |region|
    {
      hide SplitSets;
      ResumeUnfold(done, region);
      if |region| < 4 {
        return Malformed(Some(version), TooShort);
      }
      var length := U16(region, 2);
      if length < 4 {
        SplitFails(region);
        return Malformed(Some(version), overrun);
      }
      if length > |region| {
        SplitFails(region);
        return Malformed(Some(version), overrun);
      }
      done := done + [WireSet(U16(region, 0), region[4..length])];
      region := region[length..];
    }
    ResumeUnfold(done, region);
    v := Sound(version);
  }

  method ValidateV5(d: bytes) returns (v: Verdict)
    requires Probe(d) == Some(NetflowV5)
    ensures v == Sound(NetflowV5) <==> |d| >= 24 && forall r :: r in V5.Decode(d, "") ==> !V5.IsTruncated(r)
    ensures v != Sound(NetflowV5) ==> v == Malformed(Some(NetflowV5), if |d| < 24 then TooShort else ShortRecord)
  {
    if |d| < 24 {
      return Malformed(Some(NetflowV5), TooShort);
    }
    var h := ParseHeader(d);
    V5.RecordsOf(d[24..], V5.Count(h.value), "", h.value);
    hide V5.Records, V5.IsTruncated;
    if |d| < 24 + V5.Count(h.value) * V5.RECORD_LEN {
      ghost var rows := V5.Decode(d, "");
      assert rows[|rows| - 1] in rows;
      return Malformed(Some(NetflowV5), ShortRecord);
    }
    v := Sound(NetflowV5);
  }

  method ValidateV9(d: bytes) returns (v: Verdict)
    ensures v.Sound? ==> v.version == NetflowV9
    ensures |d| < 20 ==> v == Malformed(Some(NetflowV9), TooShort)
    ensures |d| >= 20 ==>
      (v == Sound(NetflowV9) <==> SplitSets(d[20..]).Some? && SplitSets(d[20..]).value.tail == [])
    ensures |d| >= 20 && SplitSets(d[20..]).None? ==> v == Malformed(Some(NetflowV9), SetLengthOverrun)
    ensures |d| >= 20 && SplitSets(d[20..]).Some? && SplitSets(d[20..]).value.tail != [] ==>
      v == Malformed(Some(NetflowV9), TooShort)
  {
    if |d| < 20 {
      return Malformed(Some(NetflowV9), TooShort);
    }
    v := ValidateSets(d[20..], NetflowV9, SetLengthOverrun);
  }

  /** Only the validator honours the declared length. */
  method ValidateIpfix(d: bytes) returns (v: Verdict)
    ensures v.Sound? ==> v.version == Ipfix
    ensures |d| < 16 ==> v == Malformed(Some(Ipfix), TooShort)
    ensures |d| >= 16 && !(16 <= U16(d, 2) <= |d|) ==> v == Malformed(Some(Ipfix), BadIpfixSet)
    ensures |d| >= 16 && 16 <= U16(d, 2) <= |d| ==>
      (v == Sound(Ipfix) <==> IpfixAccepted(d))
    ensures |d| >= 16 && 16 <= U16(d, 2) <= |d| && !IpfixAccepted(d) ==>
      v == Malformed(Some(Ipfix), if SplitSets(d[16..U16(d, 2)]).None? then BadIpfixSet else TooShort)
    ensures |d| >= 16 && U16(d, 2) == |d| ==>
      (v == Sound(Ipfix) <==> SplitSets(d[16..]).Some? && SplitSets(d[16..]).value.tail == [])
  {
    if |d| < 16 {
      return Malformed(Some(Ipfix), TooShort);
    }
    var declared := U16(d, 2);
    if declared < 16 || declared > |d| {
      return Malformed(Some(Ipfix), BadIpfixSet);
    }
    assert declared == |d| ==> d[16..declared] == d[16..];
    v := ValidateSets(d[16..declared], Ipfix, BadIpfixSet);
  }

  /** What the validator's approval means, in the decoder's terms. */
  predicate IsSound(d: bytes, v: Version) {
    Probe(d) == Some(v) &&
    match v
    case NetflowV5 => |d| >= 24 && forall r :: r in V5.Decode(d, "") ==> !V5.IsTruncated(r)
    case NetflowV9 => |d| >= 20 && SplitSets(d[20..]).Some? && SplitSets(d[20..]).value.tail == []
    case Ipfix => |d| >= 16 && 16 <= U16(d, 2) <= |d| && IpfixAccepted(d)
    case Sflow5 => ParseHeader(d).Some?
  }

  /** The one complaint there can be about a datagram that is not sound. */
  function KindFor(d: bytes): Kind {
    match Probe(d)
    case None => NotAFlow
    case Some(NetflowV5) => if |d| < 24 then TooShort else ShortRecord
    case Some(NetflowV9) => if |d| >= 20 && SplitSets(d[20..]).None? then SetLengthOverrun else TooShort
    case Some(Ipfix) =>
      if |d| < 16 then TooShort
      else if !(16 <= U16(d, 2) <= |d|) then BadIpfixSet
      else if SplitSets(d[16..U16(d, 2)]).None? then BadIpfixSet
      else TooShort
    case Some(Sflow5) => TooShort
  }

  method Validate(d: bytes) returns (v: Verdict)
    ensures v.Sound? ==> Probe(d) == Some(v.version)
    ensures Probe(d).None? ==> v == Malformed(None, NotAFlow)
    ensures v.Malformed? ==> v.probed == Probe(d) && v.kind == KindFor(d)
    ensures forall w :: v == Sound(w) <==> IsSound(d, w)
  {
    hide V5.Decode, SplitSets, IpfixAccepted;
    match Probe(d)
    case None => v := Malformed(None, NotAFlow);
    case Some(NetflowV5) => v := ValidateV5(d);
    case Some(NetflowV9) => v := ValidateV9(d);
    case Some(Ipfix) => v := ValidateIpfix(d);
    case Some(Sflow5) => v := if ParseSflow(d).Some? then Sound(Sflow5) else Malformed(Some(Sflow5), TooShort);
  }

  predicate IpfixAccepted(d: bytes)
    requires |d| >= 16 && 16 <= U16(d, 2) <= |d|
  {
    var sp := SplitSets(d[16..U16(d, 2)]);
    sp.Some? && sp.value.tail == []
  }

  /**
   * The IPFIX decoder splits everything after the header. On a datagram the validator accepts, it reads the
   * validated Sets followed by whatever the bytes past the declared length split into.
   */
  lemma IpfixDecoderReadsOn(d: bytes)
    requires |d| >= 16 && 16 <= U16(d, 2) <= |d| && IpfixAccepted(d)
    ensures SplitSets(d[16..]) == Resume(SplitSets(d[16..U16(d, 2)]).value.sets, SplitSets(d[U16(d, 2)..]))
  {
    var n := U16(d, 2);
    var sp := SplitSets(d[16..n]).value;
    SplitIsExact(d[16..n]);
    hide SplitSets;
    assert Join(sp.sets) + sp.tail == Join(sp.sets);
    assert d[16..] == d[16..n] + d[n..];
    SplitJoined(sp.sets, d[n..]);
  }

  /** So it agrees with the validator exactly when fewer than four bytes follow the declared length. */
  lemma IpfixAgreesIff(d: bytes)
    requires |d| >= 16 && 16 <= U16(d, 2) <= |d| && IpfixAccepted(d)
    ensures (SplitSets(d[16..]).Some? && SplitSets(d[16..]).value.sets == SplitSets(d[16..U16(d, 2)]).value.sets)
       <==> |d| - U16(d, 2) < 4
  {
    IpfixDecoderReadsOn(d);
    var rest := d[U16(d, 2)..];
    assert |rest| < 4 <==> SplitSets(rest).Some? && SplitSets(rest).value.sets == [];
    var sets := SplitSets(d[16..U16(d, 2)]).value.sets;
    assert SplitSets(rest).Some? ==> |sets + SplitSets(rest).value.sets| == |sets| + |SplitSets(rest).value.sets|;
    assert sets + [] == sets;
    hide SplitSets;
  }

  /**
   * Where they part: an IPFIX header that declares its own 16 bytes, and four more that the validator does not look
   * at. The validator sees no Set; the decoder sees an empty Set of id 256.
   */
  lemma IpfixReadsPastTheEnd(seconds: u32, sequence: u32, domain: u32)
    ensures var d := PrintIpfixHeader(16, seconds, sequence, domain) + [1, 0, 0, 4];
      && IsSound(d, Ipfix) && SplitSets(d[16..U16(d, 2)]).value.sets == []
      && SplitSets(d[16..]).Some? && SplitSets(d[16..]).value.sets == [WireSet(256, [])]
  {
    var s: bytes := [1, 0, 0, 4];
    var d := PrintIpfixHeader(16, seconds, sequence, domain) + s;
    IpfixHeaderRoundTrip(16, seconds, sequence, domain, s);
    assert d[16..16] == [] && SplitSets([]) == Some(Split([], []));
    assert U16(s, 0) == 256 && U16(s, 2) == 4;
    assert s[4..4] == [] && s[4..] == [];
    hide Probe, PrintIpfixHeader;
  }
}

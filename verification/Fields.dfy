/** Mapping the sliced fields of one record onto the normalized row. */
module Fields {
  import opened Wire
  import opened Inet
  import opened Flow

  const NTP_EPOCH := 2_208_988_800

  /** A record under construction, with the v9 uptime offsets collected on the way. */
  datatype Partial = Partial(row: FlowRecord, startUptime: Option<u32>, endUptime: Option<u32>)

  function Or<T>(a: Option<T>, b: Option<T>): Option<T> {
    if a.Some? then a else b
  }

  /** `u as i64`, then an unchecked multiplication. */
  function ScaledTime(u: u64, unit: i64): (r: i64) {
    WrapI64(WrapI64(u) * unit)
  }

  /** The scaling is exact for the values whose product fits 64 signed bits, and for no others. */
  lemma ScaledTimeExact(u: u64, unit: i64)
    requires unit > 0
    ensures ScaledTime(u, unit) == u * unit <==> u * unit < TWO_63
  {
    hide WrapI64;
    AtLeast(u, unit);
  }

  /** The smallest millisecond and second counts that go wrong. */
  lemma ScaledTimeWraps()
    ensures ScaledTime(9_223_372_036_854_775, 1_000) == 9_223_372_036_854_775 * 1_000
    ensures ScaledTime(9_223_372_036_854_776, 1_000) != 9_223_372_036_854_776 * 1_000
    ensures ScaledTime(9_223_372_036_854, 1_000_000) == 9_223_372_036_854 * 1_000_000
    ensures ScaledTime(9_223_372_036_855, 1_000_000) != 9_223_372_036_855 * 1_000_000
  {
    ScaledTimeExact(9_223_372_036_854_775, 1_000);
    ScaledTimeExact(9_223_372_036_854_776, 1_000);
    ScaledTimeExact(9_223_372_036_854, 1_000_000);
    ScaledTimeExact(9_223_372_036_855, 1_000_000);
    hide ScaledTime;
  }

  lemma AtLeast(u: nat, unit: nat)
    requires unit > 0
    ensures u <= u * unit
  {
  }

  /** Seconds since 1900 and a 32-bit fraction, as microseconds since 1970. */
  function NtpMicros(b: bytes): Option<i64> {
    if |b| != 8 then None
    else
      Some((U32(b, 0) - NTP_EPOCH) * 1_000_000 + U32(b, 4) * 1_000_000 / TWO_32)
  }

  function MapField(p: Partial, f: FieldSpec, b: bytes): Partial {
    var r := p.row;
    if f.enterprise != 0 then
      var noted :=
        if |f.name| > 0 && f.name[0] == 'e' && f.ieType == "octetArray" then r.Note(EnterpriseUnmapped) else r;
      p.(row := noted.PutRaw(f.name, b))
    else
      var u := BeUint(b);
      match f.ieId
      case 22 => p.(startUptime := Some(u % TWO_32))
      case 21 => p.(endUptime := Some(u % TWO_32))
      case _ => p.(row := MapColumn(r, f, u, b))
  }

  /** The numeric columns. */
  function MapColumn(r: FlowRecord, f: FieldSpec, u: u64, b: bytes): FlowRecord {
    match f.ieId
    case 7 | 180 | 182 => r.(srcPort := Some(u % TWO_16))
    case 11 | 181 | 183 => r.(dstPort := Some(u % TWO_16))
    case 4 => r.(protocol := Some(u % 256))
    case 5 | 195 => r.(tos := Some(u % 256))
    case 6 => r.(tcpFlags := Some(u % 256))
    case 10 => r.(inputSnmp := Some(u % TWO_32))
    case 14 => r.(outputSnmp := Some(u % TWO_32))
    case 16 => r.(srcAs := Some(u % TWO_32))
    case 17 => r.(dstAs := Some(u % TWO_32))
    case 9 | 29 => r.(srcMask := Some(u % 256))
    case 13 | 30 => r.(dstMask := Some(u % 256))
    case 34 | 305 => r.(samplingRate := Some(u % TWO_32))
    case 61 => r.(direction := Some(u % 256))
    case _ => MapOther(r, f, u, b)
  }

  /** Counters, addresses and timestamps; anything else is kept raw. */
  function MapOther(r: FlowRecord, f: FieldSpec, u: u64, b: bytes): FlowRecord {
    match f.ieId
    case 8 | 130 => r.(srcAddr := Or(Inet4(b), r.srcAddr))
    case 27 | 131 => r.(srcAddr := Or(Inet6(b), r.srcAddr))
    case 12 | 226 => r.(dstAddr := Or(Inet4(b), r.dstAddr))
    case 28 => r.(dstAddr := Or(Inet6(b), r.dstAddr))
    case 1 | 23 | 85 | 351 | 352 => if r.octets.None? || f.ieId == 1 then r.(octets := Some(u)) else r
    case 2 | 24 | 86 => if r.packets.None? || f.ieId == 2 then r.(packets := Some(u)) else r
    case 15 | 18 => r.(nextHop := Or(Inet4(b), r.nextHop))
    case 62 | 63 => r.(nextHop := Or(Inet6(b), r.nextHop))
    case 150 => r.(flowStart := Some(ScaledTime(u, 1_000_000)))
    case 151 => r.(flowEnd := Some(ScaledTime(u, 1_000_000)))
    case 152 => r.(flowStart := Some(ScaledTime(u, 1_000)))
    case 153 => r.(flowEnd := Some(ScaledTime(u, 1_000)))
    case 154 | 156 => r.(flowStart := Or(NtpMicros(b), r.flowStart))
    case 155 | 157 => r.(flowEnd := Or(NtpMicros(b), r.flowEnd))
    case _ => r.PutRaw(f.name, b)
  }

  /** All fields of a record, in template order. */
  function MapFields(p: Partial, fields: seq<FieldSpec>, cells: seq<bytes>): Partial
    requires |fields| == |cells|
  {
    if fields == [] then p
    else
      var n := |fields| - 1;
      MapField(MapFields(p, fields[..n], cells[..n]), fields[n], cells[n])
  }

  /** Wall-clock time of an uptime offset, in unchecked 64-bit arithmetic. */
  function BootRelative(exported: i64, uptime: u64, offset: u32): i64 {
    var boot := WrapI64(exported - WrapI64(WrapI64(uptime) * 1_000));
    WrapI64(boot + offset * 1_000)
  }

  function ResolveTimes(p: Partial, ctx: Ctx): FlowRecord {
    var r := p.row;
    if ctx.exportTime.None? || ctx.sysUptime.None? then r
    else
      var (e, up) := (ctx.exportTime.value, ctx.sysUptime.value);
      var start :=
        if r.flowStart.None? && p.startUptime.Some?
        then Some(BootRelative(e, up, p.startUptime.value)) else r.flowStart;
      var end :=
        if r.flowEnd.None? && p.endUptime.Some?
        then Some(BootRelative(e, up, p.endUptime.value)) else r.flowEnd;
      r.(flowStart := start, flowEnd := end)
  }

  function EmptyPartial(ctx: Ctx): Partial {
    Partial(
      HeaderRow(ctx.exporter, Some(ctx.version), ctx.domain, Some(ctx.templateId), ctx.exportTime, ctx.sequence),
      None, None)
  }

  function BuildRow(fields: seq<FieldSpec>, cells: seq<bytes>, ctx: Ctx): FlowRecord
    requires |fields| == |cells|
  {
    ResolveTimes(MapFields(EmptyPartial(ctx), fields, cells), ctx)
  }

  // What the row holds, said without following the mapping step by step.

  /** Standard elements that have a column or feed one. */
  predicate HasColumn(f: FieldSpec) {
    f.enterprise == 0 &&
    f.ieId in {1, 2, 4, 5, 6, 7, 8, 9, 10, 11, 12, 13, 14, 15, 16, 17, 18, 21, 22, 23, 24, 27, 28, 29, 30, 34,
               61, 62, 63, 85, 86, 130, 131, 150, 151, 152, 153, 154, 155, 156, 157, 180, 181, 182, 183, 195,
               226, 305, 351, 352}
  }

  function Unmapped(fields: seq<FieldSpec>, cells: seq<bytes>): seq<(string, bytes)>
    requires |fields| == |cells|
  {
    if fields == [] then []
    else if HasColumn(fields[0]) then Unmapped(fields[1..], cells[1..])
    else [(fields[0].name, cells[0])] + Unmapped(fields[1..], cells[1..])
  }

  /** Positions of the standard fields whose element is in `ids`, in order. */
  function Positions(fields: seq<FieldSpec>, ids: set<u16>): (ps: seq<nat>)
    ensures forall i :: 0 <= i < |ps| ==> ps[i] < |fields|
  {
    if fields == [] then []
    else
      var n := |fields| - 1;
      Positions(fields[..n], ids) + if fields[n].enterprise == 0 && fields[n].ieId in ids then [n] else []
  }

  /** The last value of the primary counter if it occurs, else the first of the alternatives. */
  function Counter(fields: seq<FieldSpec>, cells: seq<bytes>, primary: u16, alternatives: set<u16>): Option<u64>
    requires |fields| == |cells|
  {
    var p, a := Positions(fields, {primary}), Positions(fields, alternatives);
    if p != [] then Some(BeUint(cells[p[|p| - 1]]))
    else if a != [] then Some(BeUint(cells[a[0]]))
    else None
  }

  lemma {:induction false} UnmappedSnoc(fields: seq<FieldSpec>, cells: seq<bytes>, f: FieldSpec, b: bytes)
    requires |fields| == |cells|
    ensures Unmapped(fields + [f], cells + [b])
         == Unmapped(fields, cells) + if HasColumn(f) then [] else [(f.name, b)]
  {
    if fields != [] {
      UnmappedSnoc(fields[1..], cells[1..], f, b);
      assert (fields + [f])[1..] == fields[1..] + [f];
      assert (cells + [b])[1..] == cells[1..] + [b];
    }
  }

  predicate IsNumber(id: u16) {
    id in {4, 5, 6, 7, 9, 10, 11, 13, 14, 16, 17, 29, 30, 34, 61, 180, 181, 182, 183, 195, 305}
  }

  /** A row with its plain numeric columns blanked out. */
  function Rest(r: FlowRecord): FlowRecord {
    r.(srcPort := None, dstPort := None, protocol := None, tos := None, tcpFlags := None, inputSnmp := None,
       outputSnmp := None, srcAs := None, dstAs := None, srcMask := None, dstMask := None, samplingRate := None,
       direction := None)
  }

  /** A numeric element changes only numeric columns; any other goes on to the remaining cases. */
  lemma NumberOrOther(r: FlowRecord, f: FieldSpec, u: u64, b: bytes)
    ensures if IsNumber(f.ieId) then Rest(MapColumn(r, f, u, b)) == Rest(r)
            else MapColumn(r, f, u, b) == MapOther(r, f, u, b)
  {
    hide MapOther;
  }

  lemma RawStep(p: Partial, f: FieldSpec, b: bytes)
    ensures MapField(p, f, b).row.rawFields == p.row.rawFields + if HasColumn(f) then [] else [(f.name, b)]
  {
    NumberOrOther(p.row, f, BeUint(b), b);
    hide MapColumn, BeUint, Inet4, Inet6, NtpMicros, ScaledTime;
  }

  lemma UnmappedLast(fields: seq<FieldSpec>, cells: seq<bytes>)
    requires 0 < |fields| == |cells|
    ensures var n := |fields| - 1;
      Unmapped(fields, cells)
      == Unmapped(fields[..n], cells[..n]) + if HasColumn(fields[n]) then [] else [(fields[n].name, cells[n])]
  {
    hide Unmapped, HasColumn;
    var n := |fields| - 1;
    assert fields == fields[..n] + [fields[n]];
    assert cells == cells[..n] + [cells[n]];
    UnmappedSnoc(fields[..n], cells[..n], fields[n], cells[n]);
  }

  lemma {:induction false} RawFieldsOf(p: Partial, fields: seq<FieldSpec>, cells: seq<bytes>)
    requires |fields| == |cells|
    ensures MapFields(p, fields, cells).row.rawFields == p.row.rawFields + Unmapped(fields, cells)
  {
    if fields != [] {
      var n := |fields| - 1;
      RawFieldsOf(p, fields[..n], cells[..n]);
      RawStep(MapFields(p, fields[..n], cells[..n]), fields[n], cells[n]);
      UnmappedLast(fields, cells);
      hide MapField, HasColumn, Unmapped;
    }
  }

  function Counted(before: Option<u64>, f: FieldSpec, b: bytes, primary: u16, alternatives: set<u16>): Option<u64> {
    if f.enterprise == 0 && (f.ieId == primary || (before.None? && f.ieId in alternatives))
    then Some(BeUint(b)) else before
  }

  lemma OctetsStep(p: Partial, f: FieldSpec, b: bytes)
    ensures MapField(p, f, b).row.octets == Counted(p.row.octets, f, b, 1, {23, 85, 351, 352})
  {
    NumberOrOther(p.row, f, BeUint(b), b);
    hide MapColumn, BeUint, Inet4, Inet6, NtpMicros, ScaledTime;
  }

  lemma PacketsStep(p: Partial, f: FieldSpec, b: bytes)
    ensures MapField(p, f, b).row.packets == Counted(p.row.packets, f, b, 2, {24, 86})
  {
    NumberOrOther(p.row, f, BeUint(b), b);
    hide MapColumn, BeUint, Inet4, Inet6, NtpMicros, ScaledTime;
  }

  lemma CounterSnoc(fields: seq<FieldSpec>, cells: seq<bytes>, primary: u16, alternatives: set<u16>)
    requires 0 < |fields| == |cells|
    ensures var n := |fields| - 1;
      Counter(fields, cells, primary, alternatives)
      == Counted(Counter(fields[..n], cells[..n], primary, alternatives), fields[n], cells[n], primary, alternatives)
  {
    var n := |fields| - 1;
    var p, a := Positions(fields[..n], {primary}), Positions(fields[..n], alternatives);
    var p', a' := Positions(fields, {primary}), Positions(fields, alternatives);
    var f := fields[n];
    assert p' == p + if f.enterprise == 0 && f.ieId == primary then [n] else [];
    assert a' == a + if f.enterprise == 0 && f.ieId in alternatives then [n] else [];
    hide BeUint, Positions;
  }

  lemma {:induction false} CountersOf(p: Partial, fields: seq<FieldSpec>, cells: seq<bytes>)
    requires |fields| == |cells|
    requires p.row.octets.None? && p.row.packets.None?
    ensures MapFields(p, fields, cells).row.octets == Counter(fields, cells, 1, {23, 85, 351, 352})
    ensures MapFields(p, fields, cells).row.packets == Counter(fields, cells, 2, {24, 86})
  {
    if fields != [] {
      var n := |fields| - 1;
      CountersOf(p, fields[..n], cells[..n]);
      OctetsStep(MapFields(p, fields[..n], cells[..n]), fields[n], cells[n]);
      PacketsStep(MapFields(p, fields[..n], cells[..n]), fields[n], cells[n]);
      CounterSnoc(fields, cells, 1, {23, 85, 351, 352});
      CounterSnoc(fields, cells, 2, {24, 86});
      hide MapField, Counter, Counted;
    }
  }

  /** `raw_fields` and the two counters of a finished row, for every template and field order. */
  lemma RowContents(fields: seq<FieldSpec>, cells: seq<bytes>, ctx: Ctx)
    requires |fields| == |cells|
    ensures var r := BuildRow(fields, cells, ctx);
      && r.rawFields == Unmapped(fields, cells)
      && r.octets == Counter(fields, cells, 1, {23, 85, 351, 352})
      && r.packets == Counter(fields, cells, 2, {24, 86})
  {
    RawFieldsOf(EmptyPartial(ctx), fields, cells);
    CountersOf(EmptyPartial(ctx), fields, cells);
  }

  /** The numeric columns that simply keep the last value of their elements, narrowed to the column's width. */
  datatype Column =
    | SrcPort | DstPort | Protocol | Tos | TcpFlags | InputSnmp | OutputSnmp
    | SrcAs | DstAs | SrcMask | DstMask | SamplingRate | Direction

  function Elements(c: Column): set<u16> {
    match c
    case SrcPort => {7, 180, 182}
    case DstPort => {11, 181, 183}
    case Protocol => {4}
    case Tos => {5, 195}
    case TcpFlags => {6}
    case InputSnmp => {10}
    case OutputSnmp => {14}
    case SrcAs => {16}
    case DstAs => {17}
    case SrcMask => {9, 29}
    case DstMask => {13, 30}
    case SamplingRate => {34, 305}
    case Direction => {61}
  }

  function Modulus(c: Column): nat {
    match c
    case SrcPort | DstPort => TWO_16
    case Protocol | Tos | TcpFlags | SrcMask | DstMask | Direction => 256
    case _ => TWO_32
  }

  function Get(r: FlowRecord, c: Column): Option<int> {
    match c
    case SrcPort => r.srcPort
    case DstPort => r.dstPort
    case Protocol => r.protocol
    case Tos => r.tos
    case TcpFlags => r.tcpFlags
    case InputSnmp => r.inputSnmp
    case OutputSnmp => r.outputSnmp
    case SrcAs => r.srcAs
    case DstAs => r.dstAs
    case SrcMask => r.srcMask
    case DstMask => r.dstMask
    case SamplingRate => r.samplingRate
    case Direction => r.direction
  }

  function NumberIn(c: Column, f: FieldSpec, b: bytes): Option<int> {
    if f.enterprise == 0 && f.ieId in Elements(c) then Some(BeUint(b) % Modulus(c)) else None
  }

  lemma ColumnStep(p: Partial, f: FieldSpec, b: bytes, c: Column)
    ensures Get(MapField(p, f, b).row, c) == Or(NumberIn(c, f, b), Get(p.row, c))
  {
    NumberStep(p.row, f, BeUint(b), b, c);
    hide BeUint, MapColumn;
  }

  lemma NumberStep(r: FlowRecord, f: FieldSpec, u: u64, b: bytes, c: Column)
    ensures Get(MapColumn(r, f, u, b), c) == if f.ieId in Elements(c) then Some(u % Modulus(c)) else Get(r, c)
  {
    if IsNumber(f.ieId) {
      if Transport(c) {
        TransportStep(r, f, u, b, c);
      } else {
        RoutingStep(r, f, u, b, c);
      }
    } else {
      NumberOrOther(r, f, u, b);
      OtherKeeps(r, f, u, b, c);
    }
    hide MapColumn, MapOther, Get, Modulus;
  }

  /** The columns of the transport header and the interfaces. */
  predicate Transport(c: Column) {
    c in {SrcPort, DstPort, Protocol, Tos, TcpFlags, InputSnmp, OutputSnmp}
  }

  lemma TransportStep(r: FlowRecord, f: FieldSpec, u: u64, b: bytes, c: Column)
    requires IsNumber(f.ieId) && Transport(c)
    ensures Get(MapColumn(r, f, u, b), c) == if f.ieId in Elements(c) then Some(u % Modulus(c)) else Get(r, c)
  {
    hide MapOther;
  }

  lemma RoutingStep(r: FlowRecord, f: FieldSpec, u: u64, b: bytes, c: Column)
    requires IsNumber(f.ieId) && !Transport(c)
    ensures Get(MapColumn(r, f, u, b), c) == if f.ieId in Elements(c) then Some(u % Modulus(c)) else Get(r, c)
  {
    hide MapOther;
  }

  lemma OtherKeeps(r: FlowRecord, f: FieldSpec, u: u64, b: bytes, c: Column)
    ensures Get(MapOther(r, f, u, b), c) == Get(r, c)
  {
    hide Inet4, Inet6, NtpMicros, ScaledTime;
  }

  datatype AddressColumn = SrcAddr | DstAddr | NextHop

  function GetAddress(r: FlowRecord, c: AddressColumn): Option<InetVal> {
    match c
    case SrcAddr => r.srcAddr
    case DstAddr => r.dstAddr
    case NextHop => r.nextHop
  }

  /** The IPv4 and the IPv6 elements of an address column. */
  function AddressElements(c: AddressColumn): (set<u16>, set<u16>) {
    match c
    case SrcAddr => ({8, 130}, {27, 131})
    case DstAddr => ({12, 226}, {28})
    case NextHop => ({15, 18}, {62, 63})
  }

  /** A field of the wrong length contributes no address. */
  function AddressIn(c: AddressColumn, f: FieldSpec, b: bytes): Option<InetVal> {
    var (v4, v6) := AddressElements(c);
    if f.enterprise != 0 then None
    else if f.ieId in v4 then Inet4(b)
    else if f.ieId in v6 then Inet6(b)
    else None
  }

  lemma AddressStep(p: Partial, f: FieldSpec, b: bytes, c: AddressColumn)
    ensures GetAddress(MapField(p, f, b).row, c) == Or(AddressIn(c, f, b), GetAddress(p.row, c))
  {
    NumberOrOther(p.row, f, BeUint(b), b);
    hide MapColumn, BeUint, Inet4, Inet6, NtpMicros, ScaledTime;
  }

  /** Absolute flow times; `first` selects the start column. */
  function TimeIn(first: bool, f: FieldSpec, b: bytes): Option<i64> {
    if f.enterprise != 0 then None
    else if f.ieId == (if first then 150 else 151) then Some(ScaledTime(BeUint(b), 1_000_000))
    else if f.ieId == (if first then 152 else 153) then Some(ScaledTime(BeUint(b), 1_000))
    else if f.ieId in (if first then {154, 156} else {155, 157}) then NtpMicros(b)
    else None
  }

  function UptimeIn(first: bool, f: FieldSpec, b: bytes): Option<u32> {
    if f.enterprise == 0 && f.ieId == (if first then 22 else 21) then Some(BeUint(b) % TWO_32) else None
  }

  function GetTime(r: FlowRecord, first: bool): Option<i64> {
    if first then r.flowStart else r.flowEnd
  }

  function GetUptime(p: Partial, first: bool): Option<u32> {
    if first then p.startUptime else p.endUptime
  }

  lemma TimeStep(p: Partial, f: FieldSpec, b: bytes, first: bool)
    ensures GetTime(MapField(p, f, b).row, first) == Or(TimeIn(first, f, b), GetTime(p.row, first))
    ensures GetUptime(MapField(p, f, b), first) == Or(UptimeIn(first, f, b), GetUptime(p, first))
  {
    NumberOrOther(p.row, f, BeUint(b), b);
    hide MapColumn, BeUint, Inet4, Inet6, NtpMicros, ScaledTime;
  }

  /** The contribution of the last field that makes one. */
  function Latest<T>(fields: seq<FieldSpec>, cells: seq<bytes>, value: (FieldSpec, bytes) -> Option<T>): Option<T>
    requires |fields| == |cells|
  {
    if fields == [] then None
    else
      var n := |fields| - 1;
      Or(value(fields[n], cells[n]), Latest(fields[..n], cells[..n], value))
  }

  lemma {:induction false} ColumnsOf(
    ctx: Ctx, fields: seq<FieldSpec>, cells: seq<bytes>, c: Column, a: AddressColumn, first: bool)
    requires |fields| == |cells|
    ensures var p := MapFields(EmptyPartial(ctx), fields, cells);
      && Get(p.row, c) == Latest(fields, cells, (f, b) => NumberIn(c, f, b))
      && GetAddress(p.row, a) == Latest(fields, cells, (f, b) => AddressIn(a, f, b))
      && GetTime(p.row, first) == Latest(fields, cells, (f, b) => TimeIn(first, f, b))
      && GetUptime(p, first) == Latest(fields, cells, (f, b) => UptimeIn(first, f, b))
  {
    if fields != [] {
      var n := |fields| - 1;
      ColumnsOf(ctx, fields[..n], cells[..n], c, a, first);
      var p := MapFields(EmptyPartial(ctx), fields[..n], cells[..n]);
      ColumnStep(p, fields[n], cells[n], c);
      AddressStep(p, fields[n], cells[n], a);
      TimeStep(p, fields[n], cells[n], first);
      hide MapField, Get, GetAddress, GetTime, GetUptime, NumberIn, AddressIn, TimeIn, UptimeIn, EmptyPartial;
    }
  }

  /**
   * Every column of a finished row, for every template: the last field that carries a value wins; a flow time
   * falls back to the uptime offset when the header allows it and no absolute time was given.
   */
  lemma RowColumns(
    fields: seq<FieldSpec>, cells: seq<bytes>, ctx: Ctx, c: Column, a: AddressColumn, first: bool)
    requires |fields| == |cells|
    ensures var r := BuildRow(fields, cells, ctx);
      && Get(r, c) == Latest(fields, cells, (f, b) => NumberIn(c, f, b))
      && GetAddress(r, a) == Latest(fields, cells, (f, b) => AddressIn(a, f, b))
      && var uptime := Latest(fields, cells, (f, b) => UptimeIn(first, f, b));
         GetTime(r, first) == Or(
           Latest(fields, cells, (f, b) => TimeIn(first, f, b)),
           if ctx.exportTime.Some? && ctx.sysUptime.Some? && uptime.Some?
           then Some(BootRelative(ctx.exportTime.value, ctx.sysUptime.value, uptime.value)) else None)
  {
    ColumnsOf(ctx, fields, cells, c, a, first);
    ResolvedTimes(MapFields(EmptyPartial(ctx), fields, cells), ctx, c, a, first);
    hide MapFields, ResolveTimes, EmptyPartial, Get, GetAddress, GetTime, GetUptime,
      NumberIn, AddressIn, TimeIn, UptimeIn, Latest, BootRelative;
  }

  lemma ResolvedTimes(p: Partial, ctx: Ctx, c: Column, a: AddressColumn, first: bool)
    ensures Get(ResolveTimes(p, ctx), c) == Get(p.row, c)
    ensures GetAddress(ResolveTimes(p, ctx), a) == GetAddress(p.row, a)
    ensures var uptime := GetUptime(p, first);
      GetTime(ResolveTimes(p, ctx), first) == Or(
        GetTime(p.row, first),
        if ctx.exportTime.Some? && ctx.sysUptime.Some? && uptime.Some?
        then Some(BootRelative(ctx.exportTime.value, ctx.sysUptime.value, uptime.value)) else None)
  {
    hide BootRelative;
  }

  function Identity(r: FlowRecord): (string, Option<Version>, u32, Option<u16>, Option<i64>, Option<u64>) {
    (r.exporter, r.flowVersion, r.domain, r.templateId, r.exportTime, r.sequence)
  }

  /** An enterprise element the registry does not know. */
  predicate UnknownEnterprise(f: FieldSpec) {
    f.enterprise != 0 && |f.name| > 0 && f.name[0] == 'e' && f.ieType == "octetArray"
  }

  predicate AnyUnknown(fields: seq<FieldSpec>) {
    exists f :: f in fields && UnknownEnterprise(f)
  }

  lemma AnyUnknownLast(fields: seq<FieldSpec>)
    requires fields != []
    ensures AnyUnknown(fields) <==> AnyUnknown(fields[..|fields| - 1]) || UnknownEnterprise(fields[|fields| - 1])
  {
    hide UnknownEnterprise;
    var n := |fields| - 1;
    assert forall f :: f in fields <==> f in fields[..n] || f == fields[n];
  }

  /** Standard elements leave identity and notes alone. */
  lemma StandardIdentity(r: FlowRecord, f: FieldSpec, u: u64, b: bytes)
    ensures Identity(MapColumn(r, f, u, b)) == Identity(r) && MapColumn(r, f, u, b).diagnostics == r.diagnostics
  {
    NumberOrOther(r, f, u, b);
    hide MapColumn, Inet4, Inet6, NtpMicros, ScaledTime;
  }

  lemma IdentityStep(p: Partial, f: FieldSpec, b: bytes)
    ensures Identity(MapField(p, f, b).row) == Identity(p.row)
    ensures MapField(p, f, b).row.diagnostics
         == if UnknownEnterprise(f) then p.row.Note(EnterpriseUnmapped).diagnostics else p.row.diagnostics
  {
    StandardIdentity(p.row, f, BeUint(b), b);
    hide BeUint, MapColumn;
  }

  lemma {:induction false} IdentityOf(p: Partial, fields: seq<FieldSpec>, cells: seq<bytes>)
    requires |fields| == |cells| && p.row.diagnostics == []
    ensures Identity(MapFields(p, fields, cells).row) == Identity(p.row)
    ensures MapFields(p, fields, cells).row.diagnostics
         == if AnyUnknown(fields) then [EnterpriseUnmapped] else []
  {
    if fields != [] {
      var n := |fields| - 1;
      IdentityOf(p, fields[..n], cells[..n]);
      IdentityStep(MapFields(p, fields[..n], cells[..n]), fields[n], cells[n]);
      AnyUnknownLast(fields);
      hide MapField, UnknownEnterprise, Identity, AnyUnknown;
    }
  }

  /** A finished row carries its context unchanged, and one note if an unknown enterprise element occurs. */
  lemma RowIdentity(fields: seq<FieldSpec>, cells: seq<bytes>, ctx: Ctx)
    requires |fields| == |cells|
    ensures var r := BuildRow(fields, cells, ctx);
      && Identity(r)
         == (ctx.exporter, Some(ctx.version), ctx.domain, Some(ctx.templateId), ctx.exportTime, ctx.sequence)
      && r.diagnostics == if AnyUnknown(fields) then [EnterpriseUnmapped] else []
  {
    IdentityOf(EmptyPartial(ctx), fields, cells);
    hide MapFields, BootRelative, UnknownEnterprise;
  }

  /** A row with nothing but raw fields. */
  predicate OnlyRaw(r: FlowRecord) {
    NoColumns(r.(rawFields := []))
  }

  lemma {:induction false} ForeignFields(ctx: Ctx, fields: seq<FieldSpec>, cells: seq<bytes>)
    requires |fields| == |cells| && forall i :: 0 <= i < |fields| ==> fields[i].enterprise != 0
    ensures var p := MapFields(EmptyPartial(ctx), fields, cells);
      OnlyRaw(p.row) && p.startUptime == p.endUptime == None
  {
    if fields != [] {
      var n := |fields| - 1;
      ForeignFields(ctx, fields[..n], cells[..n]);
      hide MapColumn;
    }
  }

  lemma {:induction false} ForeignUnmapped(fields: seq<FieldSpec>, cells: seq<bytes>)
    requires |fields| == |cells| && forall i :: 0 <= i < |fields| ==> fields[i].enterprise != 0
    ensures |Unmapped(fields, cells)| == |fields|
    ensures forall i :: 0 <= i < |fields| ==> Unmapped(fields, cells)[i] == (fields[i].name, cells[i])
  {
    if fields != [] {
      ForeignUnmapped(fields[1..], cells[1..]);
    }
  }

  /** Enterprise and scope fields fill no column: each is kept raw, under its name, in order. */
  lemma ForeignStaysRaw(fields: seq<FieldSpec>, cells: seq<bytes>, ctx: Ctx)
    requires |fields| == |cells| && forall i :: 0 <= i < |fields| ==> fields[i].enterprise != 0
    ensures var r := BuildRow(fields, cells, ctx);
      && OnlyRaw(r) && |r.rawFields| == |fields|
      && forall i :: 0 <= i < |fields| ==> r.rawFields[i] == (fields[i].name, cells[i])
  {
    ForeignFields(ctx, fields, cells);
    ForeignUnmapped(fields, cells);
    RowContents(fields, cells, ctx);
    hide MapFields, EmptyPartial, Unmapped, Counter;
  }

  // Time arithmetic.

  /** A record of one flowStartMilliseconds field (element 152) starts when it says exactly when the product fits. */
  lemma StartTimeExactIff(u: u64, name: string, ieType: string, ctx: Ctx)
    ensures var r := BuildRow([FieldSpec(152, 0, 8, name, ieType)], [ToBigEndian(u, 8)], ctx);
      && r.flowStart == Some(ScaledTime(u, 1_000))
      && (r.flowStart == Some(u * 1_000) <==> u * 1_000 < TWO_63)
  {
    var f, b := FieldSpec(152, 0, 8, name, ieType), ToBigEndian(u, 8);
    MapOneField(EmptyPartial(ctx), f, b);
    EightBytes(8);
    BeUintInvertsEncoding(u, 8);
    ScaledTimeExact(u, 1_000);
    hide BeUint, ToBigEndian, ScaledTime, MapFields, BootRelative;
    StartTimeOnly(EmptyPartial(ctx), f, b);
    hide MapField;
  }

  lemma MapOneField(p: Partial, f: FieldSpec, b: bytes)
    ensures MapFields(p, [f], [b]) == MapField(p, f, b)
  {
    assert MapFields(p, [f][..0], [b][..0]) == p;
    hide MapField;
  }

  lemma StartTimeOnly(p: Partial, f: FieldSpec, b: bytes)
    requires f.enterprise == 0 && f.ieId == 152
    ensures MapField(p, f, b).row.flowStart == Some(ScaledTime(BeUint(b), 1_000))
  {
    TimeStep(p, f, b, true);
    hide MapField;
  }

  const FIRST_LATE: u64 := 9_223_372_036_854_776

  /** The first value that goes wrong puts the start of a flow before 1970. */
  lemma LateStartReadsAsEarly(name: string, ieType: string, ctx: Ctx)
    ensures BuildRow([FieldSpec(152, 0, 8, name, ieType)], [ToBigEndian(FIRST_LATE, 8)], ctx).flowStart
         == Some(FIRST_LATE * 1_000 - TWO_64)
    ensures FIRST_LATE * 1_000 - TWO_64 < 0
  {
    assert ScaledTime(FIRST_LATE, 1_000) == FIRST_LATE * 1_000 - TWO_64;
    StartTimeExactIff(FIRST_LATE, name, ieType, ctx);
    hide BuildRow, ScaledTime, ToBigEndian;
  }

  /** The exact floor of the 64-bit fixed-point value in microseconds, shifted to the Unix epoch. */
  lemma NtpIsFloor(b: bytes)
    requires |b| == 8
    ensures NtpMicros(b).Some?
    ensures var v := BigEndian(b); NtpMicros(b).value == v * 1_000_000 / TWO_32 - NTP_EPOCH * 1_000_000
  {
    assert b == b[0..4] + b[4..8];
    BigEndianConcat(b[0..4], b[4..8]);
    SixteenBytes();
    U32IsBigEndian(b, 0);
    U32IsBigEndian(b, 4);
    FloorSplit(U32(b, 0), U32(b, 4));
  }

  lemma FloorSplit(s: int, f: int)
    ensures (s * TWO_32 + f) * 1_000_000 / TWO_32 == s * 1_000_000 + f * 1_000_000 / TWO_32
  {
  }

  /** Later NTP timestamps never map to earlier times. */
  lemma NtpMonotone(a: bytes, b: bytes)
    requires |a| == |b| == 8 && BigEndian(a) <= BigEndian(b)
    ensures NtpMicros(a).Some? && NtpMicros(b).Some? && NtpMicros(a).value <= NtpMicros(b).value
  {
    NtpIsFloor(a);
    NtpIsFloor(b);
  }

  /** With header-sized inputs the uptime arithmetic is exact: nothing wraps. */
  lemma BootRelativeExact(exported: i64, uptime: u64, offset: u32)
    requires 0 <= exported <= TWO_32 * 1_000_000 + TWO_32 && uptime < TWO_32
    ensures BootRelative(exported, uptime, offset) == exported - uptime * 1_000 + offset * 1_000
  {
  }
}

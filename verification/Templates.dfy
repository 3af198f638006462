/** Template and Options Template records: parsing, printing, and what learning them does to the cache. */
module Templates {
  import opened Wire
  import opened Flow
  import opened CacheSpec
  import opened Cache

  /** Tags v9 scope fields so that they are never taken for a standard element. */
  const SCOPE_PEN: u32 := 0xFFFF_FFFF

  datatype TemplateDef = TemplateDef(id: u16, kind: TemplateKind, fields: seq<FieldSpec>, scopeCount: u16)

  datatype FieldList = FieldList(fields: seq<FieldSpec>, rest: bytes)

  /** The three dialects a template body is written in. */
  datatype Dialect = IpfixData | IpfixOptions | V9Data | V9Options

  function ScopeName(ty: u16): string {
    match ty
    case 1 => "scope_system"
    case 2 => "scope_interface"
    case 3 => "scope_linecard"
    case 4 => "scope_cache"
    case 5 => "scope_template"
    case _ => "scope_other"
  }

  function ScopeField(ty: u16, length: u16): FieldSpec {
    FieldSpec(ty, SCOPE_PEN, length, ScopeName(ty), "octetArray")
  }

  /** One field specifier off the front; only IPFIX has the enterprise bit. */
  function OneField(ext: Externals, s: bytes, ipfix: bool, scope: bool): Option<FieldList> {
    if |s| < 4 then None
    else
      var (id, length) := (U16(s, 0), U16(s, 2));
      if ipfix && id >= 0x8000 then
        if |s| < 8 then None else Some(FieldList([ext.Field(U32(s, 4), id - 0x8000, length)], s[8..]))
      else
        Some(FieldList([if scope then ScopeField(id, length) else ext.Field(0, id, length)], s[4..]))
  }

  function ManyFields(ext: Externals, s: bytes, n: nat, ipfix: bool, scope: bool): (r: Option<FieldList>)
    ensures r.Some? ==> |r.value.rest| <= |s|
  {
    if n == 0 then Some(FieldList([], s))
    else
      var one := OneField(ext, s, ipfix, scope);
      if one.None? then None
      else Resume(one.value.fields, ManyFields(ext, one.value.rest, n - 1, ipfix, scope))
  }

  function Resume(done: seq<FieldSpec>, more: Option<FieldList>): Option<FieldList> {
    if more.None? then None else Some(FieldList(done + more.value.fields, more.value.rest))
  }

  lemma ResumeAssociates(a: seq<FieldSpec>, b: seq<FieldSpec>, more: Option<FieldList>)
    ensures Resume(a, Resume(b, more)) == Resume(a + b, more)
    ensures Resume([], more) == more
  {
    if more.Some? {
      assert a + (b + more.value.fields) == a + b + more.value.fields;
      assert [] + more.value.fields == more.value.fields;
    }
  }

  predicate ZeroAhead(s: bytes) {
    |s| >= 2 && s[0] == 0 && s[1] == 0
  }

  datatype OneTemplate = OneTemplate(def: TemplateDef, rest: bytes)

  /** One IPFIX template record (sections 3.4.1 and 3.4.2 of RFC 7011). A zero id or field count ends the Set. */
  function OneIpfix(ext: Externals, b: bytes, options: bool): Option<OneTemplate> {
    if |b| < 4 then None
    else
      var (id, count, head) := (U16(b, 0), U16(b, 2), if options then 6 else 4);
      if id == 0 || count == 0 || |b| < head then None
      else
        var fs := ManyFields(ext, b[head..], count, true, false);
        if fs.None? then None
        else
          Some(OneTemplate(
            TemplateDef(id, if options then Options else Data, fs.value.fields, if options then U16(b, 4) else 0),
            fs.value.rest))
  }

  /** One v9 template record (section 5.2 of RFC 3954). A zero id ends the FlowSet, after its fields are read. */
  function OneV9(ext: Externals, b: bytes): Option<OneTemplate> {
    if |b| < 4 then None
    else
      var fs := ManyFields(ext, b[4..], U16(b, 2), false, false);
      if fs.None? || U16(b, 0) == 0 then None
      else Some(OneTemplate(TemplateDef(U16(b, 0), Data, fs.value.fields, 0), fs.value.rest))
  }

  /** One v9 options template record (section 6.1 of RFC 3954): lengths in bytes, scope fields first. */
  function OneV9Options(ext: Externals, b: bytes): Option<OneTemplate> {
    if |b| < 6 then None
    else
      var scopes := U16(b, 2) / 4;
      var ss := ManyFields(ext, b[6..], scopes, false, true);
      if ss.None? then None
      else
        var fs := ManyFields(ext, ss.value.rest, U16(b, 4) / 4, false, false);
        if fs.None? || U16(b, 0) == 0 then None
        else
          Some(OneTemplate(TemplateDef(U16(b, 0), Options, ss.value.fields + fs.value.fields, scopes), fs.value.rest))
  }

  function One(ext: Externals, b: bytes, d: Dialect): (r: Option<OneTemplate>)
    ensures r.Some? ==> |r.value.rest| < |b|
  {
    match d
    case IpfixData => OneIpfix(ext, b, false)
    case IpfixOptions => OneIpfix(ext, b, true)
    case V9Data => OneV9(ext, b)
    case V9Options => OneV9Options(ext, b)
  }

  /** A template body: records until one does not parse or, except in plain v9, a zero id is ahead. */
  function Parse(ext: Externals, b: bytes, d: Dialect): seq<TemplateDef>
    decreases |b|
  {
    var one := One(ext, b, d);
    if one.None? then []
    else
      [one.value.def] + if !d.V9Data? && ZeroAhead(one.value.rest) then [] else Parse(ext, one.value.rest, d)
  }

  // Learning.

  function EntryOf(d: TemplateDef, now: i64): TemplateEntry {
    TemplateEntry(d.kind, d.fields, d.scopeCount, now, now, 0)
  }

  ghost function Learn(c: CacheState, exporter: string, domain: u32, defs: seq<TemplateDef>, now: i64): CacheState
    decreases |defs|
  {
    if defs == [] then c
    else
      Learn(Upsert(c, TemplateKey(exporter, domain, defs[0].id), EntryOf(defs[0], now)), exporter, domain,
        defs[1..], now)
  }

  lemma LearnNothing(c: CacheState, exporter: string, domain: u32, now: i64)
    ensures Learn(c, exporter, domain, [], now) == c
  {
  }

  lemma {:induction false} LearnConcat(
    c: CacheState, exporter: string, domain: u32, a: seq<TemplateDef>, b: seq<TemplateDef>, now: i64)
    ensures Learn(c, exporter, domain, a + b, now)
         == Learn(Learn(c, exporter, domain, a, now), exporter, domain, b, now)
    decreases |a|
  {
    hide Upsert;
    if a == [] {
      assert a + b == b;
    } else {
      assert (a + b)[1..] == a[1..] + b;
      LearnConcat(Upsert(c, TemplateKey(exporter, domain, a[0].id), EntryOf(a[0], now)), exporter, domain, a[1..], b,
        now);
    }
  }

  lemma LearnFirst(c: CacheState, exporter: string, domain: u32, d: TemplateDef, more: seq<TemplateDef>, now: i64)
    ensures Learn(c, exporter, domain, [d] + more, now)
         == Learn(Upsert(c, TemplateKey(exporter, domain, d.id), EntryOf(d, now)), exporter, domain, more, now)
    ensures Learn(c, exporter, domain, [], now) == c
  {
    assert ([d] + more)[1..] == more;
    hide Upsert;
  }

  // The parsers of the source: a cursor and a cache updated template by template.

  method ReadFields(ext: Externals, cur: Cursor, n: nat, ipfix: bool, scope: bool) returns (r: Option<seq<FieldSpec>>)
    requires cur.Valid()
    modifies cur`pos
    ensures cur.Valid()
    ensures var m := ManyFields(ext, old(cur.Rest()), n, ipfix, scope);
      if m.None? then r.None? else r == Some(m.value.fields) && cur.Rest() == m.value.rest
  {
    hide ManyFields, Resume;
    var fields := [];
    ghost var whole := ManyFields(ext, cur.Rest(), n, ipfix, scope);
    ResumeAssociates([], [], whole);
    for i := 0 to n
      invariant cur.Valid()
      invariant whole == Resume(fields, ManyFields(ext, cur.Rest(), n - i, ipfix, scope))
    {
      ghost var s := cur.Rest();
      FieldsUnfold(ext, s, n - i, ipfix, scope, fields);
      var id := cur.ReadU16();
      if id.None? {
        return None;
      }
      assert cur.Rest() == s[2..];
      var length := cur.ReadU16();
      if length.None? {
        return None;
      }
      assert cur.Rest() == s[4..] && length.value == U16(s, 2);
      if ipfix && id.value >= 0x8000 {
        var pen := cur.ReadU32();
        if pen.None? {
          return None;
        }
        assert cur.Rest() == s[8..] && pen.value == U32(s, 4);
        fields := fields + [ext.Field(pen.value, id.value - 0x8000, length.value)];
      } else {
        fields := fields + [if scope then ScopeField(id.value, length.value) else ext.Field(0, id.value, length.value)];
      }
    }
    FieldsUnfold(ext, cur.Rest(), 0, ipfix, scope, fields);
    r := Some(fields);
  }

  lemma FieldsUnfold(ext: Externals, s: bytes, n: nat, ipfix: bool, scope: bool, done: seq<FieldSpec>)
    ensures n == 0 ==> Resume(done, ManyFields(ext, s, n, ipfix, scope)) == Some(FieldList(done, s))
    ensures n > 0 ==> var one := OneField(ext, s, ipfix, scope);
      Resume(done, ManyFields(ext, s, n, ipfix, scope))
      == if one.None? then None
         else Resume(done + one.value.fields, ManyFields(ext, one.value.rest, n - 1, ipfix, scope))
  {
    var one := OneField(ext, s, ipfix, scope);
    if n > 0 && one.Some? {
      ResumeAssociates(done, one.value.fields, ManyFields(ext, one.value.rest, n - 1, ipfix, scope));
    }
    assert done + [] == done;
  }

  method ReadIpfix(ext: Externals, c: Cursor, options: bool) returns (r: Option<TemplateDef>)
    requires c.Valid()
    modifies c`pos
    ensures c.Valid()
    ensures var one := OneIpfix(ext, old(c.Rest()), options);
      if one.None? then r.None? else r == Some(one.value.def) && c.Rest() == one.value.rest
  {
    hide ManyFields;
    ghost var b := c.Rest();
    var rem := c.Remaining();
    if rem < 4 {
      return None;
    }
    var id := c.ReadU16();
    assert c.Rest() == b[2..];
    var count := c.ReadU16();
    assert c.Rest() == b[4..] && count.value == U16(b, 2);
    if id.value == 0 || count.value == 0 {
      return None;
    }
    var scopes: Option<u16> := Some(0);
    if options {
      scopes := c.ReadU16();
      if scopes.None? {
        return None;
      }
      assert c.Rest() == b[6..] && scopes.value == U16(b, 4);
    }
    var fields := ReadFields(ext, c, count.value, true, false);
    if fields.None? {
      return None;
    }
    r := Some(TemplateDef(id.value, if options then Options else Data, fields.value, scopes.value));
  }

  method ReadV9(ext: Externals, c: Cursor) returns (r: Option<TemplateDef>)
    requires c.Valid()
    modifies c`pos
    ensures c.Valid()
    ensures var one := OneV9(ext, old(c.Rest()));
      if one.None? then r.None? else r == Some(one.value.def) && c.Rest() == one.value.rest
  {
    hide ManyFields;
    ghost var b := c.Rest();
    var rem := c.Remaining();
    if rem < 4 {
      return None;
    }
    var id := c.ReadU16();
    assert c.Rest() == b[2..];
    var count := c.ReadU16();
    assert c.Rest() == b[4..] && count.value == U16(b, 2);
    var fields := ReadFields(ext, c, count.value, false, false);
    if fields.None? || id.value == 0 {
      return None;
    }
    r := Some(TemplateDef(id.value, Data, fields.value, 0));
  }

  method ReadV9Options(ext: Externals, c: Cursor) returns (r: Option<TemplateDef>)
    requires c.Valid()
    modifies c`pos
    ensures c.Valid()
    ensures var one := OneV9Options(ext, old(c.Rest()));
      if one.None? then r.None? else r == Some(one.value.def) && c.Rest() == one.value.rest
  {
    hide ManyFields;
    ghost var b := c.Rest();
    var rem := c.Remaining();
    if rem < 6 {
      return None;
    }
    var id := c.ReadU16();
    assert c.Rest() == b[2..];
    var scopeLen := c.ReadU16();
    assert c.Rest() == b[4..] && scopeLen.value == U16(b, 2);
    var optionLen := c.ReadU16();
    assert c.Rest() == b[6..] && optionLen.value == U16(b, 4);
    var scopes := ReadFields(ext, c, scopeLen.value / 4, false, true);
    if scopes.None? {
      return None;
    }
    var fields := ReadFields(ext, c, optionLen.value / 4, false, false);
    if fields.None? || id.value == 0 {
      return None;
    }
    r := Some(TemplateDef(id.value, Options, scopes.value + fields.value, scopeLen.value / 4));
  }

  method ReadOne(ext: Externals, c: Cursor, d: Dialect) returns (r: Option<TemplateDef>)
    requires c.Valid()
    modifies c`pos
    ensures c.Valid()
    ensures var one := One(ext, old(c.Rest()), d);
      if one.None? then r.None? else r == Some(one.value.def) && c.Rest() == one.value.rest
  {
    hide OneIpfix, OneV9, OneV9Options;
    match d
    case IpfixData => r := ReadIpfix(ext, c, false);
    case IpfixOptions => r := ReadIpfix(ext, c, true);
    case V9Data => r := ReadV9(ext, c);
    case V9Options => r := ReadV9Options(ext, c);
  }

  /** The loop the template parsers share: read one, insert it, stop at padding. */
  method ParseTemplates(
    ext: Externals, body: bytes, exporter: string, domain: u32, now: i64, d: Dialect, cache: TemplateCache)
    modifies cache
    ensures cache.Model() == Learn(old(cache.Model()), exporter, domain, Parse(ext, body, d), now)
  {
    hide One, Learn, Upsert;
    var c := new Cursor(body);
    var more := true;
    ghost var tail := Parse(ext, body, d);
    while more
      invariant c.Valid() && fresh(c)
      invariant tail == if more then Parse(ext, c.Rest(), d) else []
      invariant Learn(cache.Model(), exporter, domain, tail, now)
             == Learn(old(cache.Model()), exporter, domain, Parse(ext, body, d), now)
      decreases more, |c.Rest()|
    {
      more := false;
      var t := ReadOne(ext, c, d);
      if t.Some? {
        ghost var after := if !d.V9Data? && ZeroAhead(c.Rest()) then [] else Parse(ext, c.Rest(), d);
        assert tail == [t.value] + after;
        LearnFirst(cache.Model(), exporter, domain, t.value, after, now);
        tail := after;
        cache.Insert(TemplateKey(exporter, domain, t.value.id),
          TemplateEntry(t.value.kind, t.value.fields, t.value.scopeCount, now, now, 0));
        var ahead := c.Peek(2);
        PeekZero(c.Rest());
        more := d.V9Data? || ahead != Some([0, 0]);
      }
    }
    LearnFirst(cache.Model(), exporter, domain, TemplateDef(0, Data, [], 0), [], now);
  }

  lemma PeekZero(s: bytes)
    ensures ZeroAhead(s) <==> |s| >= 2 && s[..2] == [0, 0]
  {
  }

  // Printing.

  datatype RawField = RawField(enterprise: u32, ieId: u16, length: u16)

  /** `scopes` leading scope fields: a count of the record's own fields in v9, a bare number in IPFIX. */
  datatype RawTemplate = RawTemplate(id: u16, scopes: seq<RawField>, scopeCount: u16, fields: seq<RawField>)

  function PrintField(f: RawField): bytes
    requires f.enterprise != 0 ==> f.ieId < 0x8000
  {
    if f.enterprise != 0 then Put16(f.ieId + 0x8000) + Put16(f.length) + Put32(f.enterprise)
    else Put16(f.ieId) + Put16(f.length)
  }

  /** IPFIX identifiers have 15 bits; v9 fields have no enterprise number. */
  predicate FieldOk(f: RawField, ipfix: bool) {
    if ipfix then f.ieId < 0x8000 else f.enterprise == 0
  }

  predicate FieldsOk(fs: seq<RawField>, ipfix: bool) {
    forall i :: 0 <= i < |fs| ==> FieldOk(fs[i], ipfix)
  }

  function PrintFields(fs: seq<RawField>, ipfix: bool): bytes
    requires FieldsOk(fs, ipfix)
  {
    if fs == [] then []
    else
      assert FieldOk(fs[0], ipfix);
      PrintField(fs[0]) + PrintFields(fs[1..], ipfix)
  }

  predicate TemplateOk(t: RawTemplate, d: Dialect) {
    && t.id != 0
    && FieldsOk(t.fields, IsIpfix(d))
    && FieldsOk(t.scopes, false)
    && match d
       case IpfixData => 0 < |t.fields| < TWO_16 && t.scopes == [] && t.scopeCount == 0
       case IpfixOptions => 0 < |t.fields| < TWO_16 && t.scopes == []
       case V9Data => |t.fields| < TWO_16 && t.scopes == [] && t.scopeCount == 0
       case V9Options => 4 * |t.fields| < TWO_16 && 4 * |t.scopes| < TWO_16 && t.scopeCount == |t.scopes|
  }

  function PrintTemplate(t: RawTemplate, d: Dialect): bytes
    requires TemplateOk(t, d)
  {
    match d
    case IpfixData => Put16(t.id) + Put16(|t.fields|) + PrintFields(t.fields, true)
    case IpfixOptions => Put16(t.id) + Put16(|t.fields|) + Put16(t.scopeCount) + PrintFields(t.fields, true)
    case V9Data => Put16(t.id) + Put16(|t.fields|) + PrintFields(t.fields, false)
    case V9Options =>
      Put16(t.id) + Put16(4 * |t.scopes|) + Put16(4 * |t.fields|)
      + PrintFields(t.scopes, false) + PrintFields(t.fields, false)
  }

  predicate TemplatesOk(ts: seq<RawTemplate>, d: Dialect) {
    forall i :: 0 <= i < |ts| ==> TemplateOk(ts[i], d)
  }

  function PrintTemplates(ts: seq<RawTemplate>, d: Dialect): bytes
    requires TemplatesOk(ts, d)
  {
    if ts == [] then [] else PrintTemplate(ts[0], d) + PrintTemplates(ts[1..], d)
  }

  function ResolveFields(ext: Externals, fs: seq<RawField>, scope: bool): (r: seq<FieldSpec>)
    ensures |r| == |fs|
    ensures forall i :: 0 <= i < |fs| ==> r[i] == if scope then ScopeField(fs[i].ieId, fs[i].length)
      else ext.Field(fs[i].enterprise, fs[i].ieId, fs[i].length)
  {
    if fs == [] then []
    else
      [if scope then ScopeField(fs[0].ieId, fs[0].length)
       else ext.Field(fs[0].enterprise, fs[0].ieId, fs[0].length)]
      + ResolveFields(ext, fs[1..], scope)
  }

  function Resolve(ext: Externals, t: RawTemplate, d: Dialect): TemplateDef {
    TemplateDef(t.id, if IsOptions(d) then Options else Data,
      ResolveFields(ext, t.scopes, true) + ResolveFields(ext, t.fields, false), t.scopeCount)
  }

  predicate IsOptions(d: Dialect) {
    d.IpfixOptions? || d.V9Options?
  }

  predicate IsIpfix(d: Dialect) {
    d.IpfixData? || d.IpfixOptions?
  }

  /** The Set that carries templates of a dialect. */
  function SetIdOf(d: Dialect): u16 {
    match d
    case V9Data => 0
    case V9Options => 1
    case IpfixData => 2
    case IpfixOptions => 3
  }

  function ResolveAll(ext: Externals, ts: seq<RawTemplate>, d: Dialect): seq<TemplateDef> {
    if ts == [] then [] else [Resolve(ext, ts[0], d)] + ResolveAll(ext, ts[1..], d)
  }

  /** Bytes after the last template that end the parse: too few for another header, or a zero id. */
  predicate Padding(s: bytes, d: Dialect) {
    |s| < (if d.V9Options? then 6 else 4) || ZeroAhead(s)
  }

  lemma OnePrinted(ext: Externals, f: RawField, rest: bytes, ipfix: bool, scope: bool)
    requires FieldOk(f, ipfix) && (scope ==> !ipfix)
    ensures OneField(ext, PrintField(f) + rest, ipfix, scope)
         == Some(FieldList(ResolveFields(ext, [f], scope), rest))
  {
    var s := PrintField(f) + rest;
    assert ResolveFields(ext, [f], scope)
        == [if scope then ScopeField(f.ieId, f.length) else ext.Field(f.enterprise, f.ieId, f.length)];
    if f.enterprise != 0 {
      var w := Put32(f.enterprise);
      assert s[0..2] == Put16(f.ieId + 0x8000) && s[2..4] == Put16(f.length) && s[4..8] == w && s[8..] == rest;
      assert U16(s, 4) == U16(w, 0) && U16(s, 6) == U16(w, 2);
    } else {
      assert s[0..2] == Put16(f.ieId) && s[2..4] == Put16(f.length) && s[4..] == rest;
    }
    assert U16(s, 0) == U16(s[0..2], 0) && U16(s, 2) == U16(s[2..4], 0);
  }

  lemma {:induction false} FieldsPrinted(ext: Externals, fs: seq<RawField>, rest: bytes, ipfix: bool, scope: bool)
    requires FieldsOk(fs, ipfix) && (scope ==> !ipfix)
    ensures ManyFields(ext, PrintFields(fs, ipfix) + rest, |fs|, ipfix, scope)
         == Some(FieldList(ResolveFields(ext, fs, scope), rest))
  {
    if fs == [] {
      assert PrintFields(fs, ipfix) + rest == rest;
    } else {
      hide OneField, PrintField;
      assert FieldOk(fs[0], ipfix);
      var after := PrintFields(fs[1..], ipfix) + rest;
      assert PrintFields(fs, ipfix) + rest == PrintField(fs[0]) + after;
      OnePrinted(ext, fs[0], after, ipfix, scope);
      FieldsPrinted(ext, fs[1..], rest, ipfix, scope);
      ResolveCons(ext, fs, scope);
      hide ResolveFields;
    }
  }

  lemma ResolveCons(ext: Externals, fs: seq<RawField>, scope: bool)
    requires fs != []
    ensures ResolveFields(ext, fs, scope) == ResolveFields(ext, [fs[0]], scope) + ResolveFields(ext, fs[1..], scope)
  {
  }

  /** One printed template parses to itself, and the parse goes on with what follows unless that starts with zeros. */
  lemma TemplatePrinted(ext: Externals, t: RawTemplate, d: Dialect, rest: bytes)
    requires TemplateOk(t, d)
    ensures Parse(ext, PrintTemplate(t, d) + rest, d)
         == [Resolve(ext, t, d)] + if !d.V9Data? && ZeroAhead(rest) then [] else Parse(ext, rest, d)
  {
    hide ManyFields, PrintFields, ResolveFields;
    match d {
      case V9Options => V9OptionsPrinted(ext, t, rest);
      case V9Data => V9Printed(ext, t, rest);
      case _ => IpfixPrinted(ext, t, d, rest);
    }
    hide One, Resolve, TemplateOk, PrintTemplate;
  }

  /** Two 16-bit numbers printed at the front are read back. */
  lemma HeadPrinted(a: u16, b: u16, rest: bytes)
    ensures var s := Put16(a) + Put16(b) + rest;
      |s| >= 4 && U16(s, 0) == a && U16(s, 2) == b && s[4..] == rest
  {
    var s := Put16(a) + Put16(b) + rest;
    assert s[0..2] == Put16(a) && s[2..4] == Put16(b);
    assert U16(s, 0) == U16(s[0..2], 0) && U16(s, 2) == U16(s[2..4], 0);
  }

  lemma ThirdPrinted(s: bytes, c: u16, rest: bytes)
    requires |s| >= 4 && s[4..] == Put16(c) + rest
    ensures |s| >= 6 && U16(s, 4) == c && s[6..] == rest
  {
    assert s[4..][0..2] == Put16(c) && s[4..][2..] == rest;
    assert s[4] == Put16(c)[0] && s[5] == Put16(c)[1];
  }

  lemma V9OptionsPrinted(ext: Externals, t: RawTemplate, rest: bytes)
    requires TemplateOk(t, V9Options)
    ensures One(ext, PrintTemplate(t, V9Options) + rest, V9Options)
         == Some(OneTemplate(Resolve(ext, t, V9Options), rest))
  {
    hide ManyFields, PrintFields, ResolveFields, Put16;
    var after := PrintFields(t.fields, false) + rest;
    var body := PrintFields(t.scopes, false) + after;
    var s := Put16(t.id) + Put16(4 * |t.scopes|) + (Put16(4 * |t.fields|) + body);
    assert PrintTemplate(t, V9Options) + rest == s;
    HeadPrinted(t.id, 4 * |t.scopes|, Put16(4 * |t.fields|) + body);
    ThirdPrinted(s, 4 * |t.fields|, body);
    FieldsPrinted(ext, t.scopes, after, false, true);
    FieldsPrinted(ext, t.fields, rest, false, false);
  }

  /** Lengths that are no multiple of four are rounded down. */
  lemma OptionLengthsRoundDown(ext: Externals, t: RawTemplate, x: nat, y: nat, rest: bytes)
    requires TemplateOk(t, V9Options) && x < 4 && y < 4
    requires 4 * |t.scopes| + x < TWO_16 && 4 * |t.fields| + y < TWO_16
    ensures var lengths := Put16(4 * |t.scopes| + x) + Put16(4 * |t.fields| + y);
      var b := Put16(t.id) + lengths + (PrintFields(t.scopes, false) + (PrintFields(t.fields, false) + rest));
      One(ext, b, V9Options) == Some(OneTemplate(Resolve(ext, t, V9Options), rest))
  {
    hide ManyFields, PrintFields, ResolveFields, Put16;
    var after := PrintFields(t.fields, false) + rest;
    var body, n, m := PrintFields(t.scopes, false) + after, 4 * |t.scopes| + x, 4 * |t.fields| + y;
    var s := Put16(t.id) + Put16(n) + (Put16(m) + body);
    assert Put16(t.id) + (Put16(n) + Put16(m)) + body == s;
    HeadPrinted(t.id, n, Put16(m) + body);
    ThirdPrinted(s, m, body);
    FieldsPrinted(ext, t.scopes, after, false, true);
    FieldsPrinted(ext, t.fields, rest, false, false);
  }

  lemma V9Printed(ext: Externals, t: RawTemplate, rest: bytes)
    requires TemplateOk(t, V9Data)
    ensures One(ext, PrintTemplate(t, V9Data) + rest, V9Data) == Some(OneTemplate(Resolve(ext, t, V9Data), rest))
  {
    hide ManyFields, PrintFields, ResolveFields, Put16;
    var body := PrintFields(t.fields, false) + rest;
    assert PrintTemplate(t, V9Data) + rest == Put16(t.id) + Put16(|t.fields|) + body;
    HeadPrinted(t.id, |t.fields|, body);
    FieldsPrinted(ext, t.fields, rest, false, false);
    NoScopes(ext, t.fields);
  }

  lemma IpfixPrinted(ext: Externals, t: RawTemplate, d: Dialect, rest: bytes)
    requires TemplateOk(t, d) && IsIpfix(d)
    ensures One(ext, PrintTemplate(t, d) + rest, d) == Some(OneTemplate(Resolve(ext, t, d), rest))
  {
    hide ManyFields, PrintFields, ResolveFields, Put16;
    var fields := PrintFields(t.fields, true) + rest;
    var body := if d.IpfixOptions? then Put16(t.scopeCount) + fields else fields;
    var s := Put16(t.id) + Put16(|t.fields|) + body;
    assert PrintTemplate(t, d) + rest == s;
    HeadPrinted(t.id, |t.fields|, body);
    if d.IpfixOptions? {
      ThirdPrinted(s, t.scopeCount, fields);
    }
    FieldsPrinted(ext, t.fields, rest, true, false);
    NoScopes(ext, t.fields);
  }

  lemma NoScopes(ext: Externals, fs: seq<RawField>)
    ensures ResolveFields(ext, [], true) + ResolveFields(ext, fs, false) == ResolveFields(ext, fs, false)
  {
  }

  /** Printed templates parse to themselves before anything that parses to nothing. */
  lemma {:induction false} PrintedBefore(ext: Externals, ts: seq<RawTemplate>, d: Dialect, tail: bytes)
    requires TemplatesOk(ts, d) && Parse(ext, tail, d) == []
    ensures Parse(ext, PrintTemplates(ts, d) + tail, d) == ResolveAll(ext, ts, d)
  {
    hide Parse, Resolve, PrintTemplate, TemplateOk, ZeroAhead;
    if ts == [] {
      assert PrintTemplates(ts, d) + tail == tail;
    } else {
      assert TemplateOk(ts[0], d);
      var after := PrintTemplates(ts[1..], d) + tail;
      assert PrintTemplates(ts, d) + tail == PrintTemplate(ts[0], d) + after;
      TemplatePrinted(ext, ts[0], d, after);
      PrintedBefore(ext, ts[1..], d, tail);
      ZerosEndTheList(ext, ts[1..], d, tail);
    }
  }

  /** A field as printed: element, enterprise number and length, with the registry's name and type for them. */
  predicate FieldIs(ext: Externals, f: FieldSpec, raw: RawField) {
    && f.ieId == raw.ieId && f.enterprise == raw.enterprise && f.length == raw.length
    && (f.name, f.ieType) == ext.resolve(raw.enterprise, raw.ieId)
  }

  /** A v9 scope field as printed, marked so that it is never taken for a standard element. */
  predicate ScopeIs(f: FieldSpec, raw: RawField) {
    && f.ieId == raw.ieId && f.length == raw.length && f.enterprise != 0 && f.ieType == "octetArray"
    && (raw.ieId == 1 ==> f.name == "scope_system")
    && (raw.ieId == 2 ==> f.name == "scope_interface")
    && (raw.ieId == 3 ==> f.name == "scope_linecard")
    && (raw.ieId == 4 ==> f.name == "scope_cache")
    && (raw.ieId == 5 ==> f.name == "scope_template")
    && (raw.ieId !in {1, 2, 3, 4, 5} ==> f.name == "scope_other")
  }

  /** A definition says what a printed template says, field by field, scope fields first. */
  predicate Describes(ext: Externals, def: TemplateDef, t: RawTemplate, d: Dialect) {
    && def.id == t.id && def.kind == (if IsOptions(d) then Options else Data) && def.scopeCount == t.scopeCount
    && |def.fields| == |t.scopes| + |t.fields|
    && (forall j :: 0 <= j < |t.scopes| ==> ScopeIs(def.fields[j], t.scopes[j]))
    && (forall j :: 0 <= j < |t.fields| ==> FieldIs(ext, def.fields[|t.scopes| + j], t.fields[j]))
  }

  lemma ResolveDescribes(ext: Externals, t: RawTemplate, d: Dialect)
    ensures Describes(ext, Resolve(ext, t, d), t, d)
  {
  }

  lemma {:induction false} ResolveAllDescribes(ext: Externals, ts: seq<RawTemplate>, d: Dialect)
    ensures |ResolveAll(ext, ts, d)| == |ts|
    ensures forall i :: 0 <= i < |ts| ==> Describes(ext, ResolveAll(ext, ts, d)[i], ts[i], d)
  {
    hide Resolve, Describes;
    if ts != [] {
      ResolveDescribes(ext, ts[0], d);
      ResolveAllDescribes(ext, ts[1..], d);
    }
  }

  /** The template round trip, in every dialect and with any ignorable padding: what is parsed is what was printed. */
  lemma TemplateRoundTrip(ext: Externals, ts: seq<RawTemplate>, d: Dialect, pad: bytes)
    requires TemplatesOk(ts, d) && Padding(pad, d)
    ensures var defs := Parse(ext, PrintTemplates(ts, d) + pad, d);
      && defs == ResolveAll(ext, ts, d)
      && |defs| == |ts| && forall i :: 0 <= i < |ts| ==> Describes(ext, defs[i], ts[i], d)
  {
    PaddingEnds(ext, pad, d);
    PrintedBefore(ext, ts, d, pad);
    ResolveAllDescribes(ext, ts, d);
    hide Parse, PrintTemplates, ResolveAll, Describes;
  }

  /** A field list cut short does not parse. */
  lemma {:induction false} CutFields(ext: Externals, fs: seq<RawField>, s: bytes, ipfix: bool, scope: bool)
    requires FieldsOk(fs, ipfix) && (scope ==> !ipfix)
    requires s < PrintFields(fs, ipfix)
    ensures ManyFields(ext, s, |fs|, ipfix, scope) == None
  {
    hide OneField, PrintField;
    assert FieldOk(fs[0], ipfix);
    var first := PrintField(fs[0]);
    if first <= s {
      var after := s[|first|..];
      assert s == first + after;
      assert PrintFields(fs, ipfix)[|first|..] == PrintFields(fs[1..], ipfix);
      OnePrinted(ext, fs[0], after, ipfix, scope);
      CutFields(ext, fs[1..], after, ipfix, scope);
    } else {
      assert PrintFields(fs, ipfix)[..|first|] == first;
      CutField(ext, fs[0], s, ipfix, scope);
    }
  }

  lemma CutField(ext: Externals, f: RawField, s: bytes, ipfix: bool, scope: bool)
    requires FieldOk(f, ipfix) && s < PrintField(f)
    ensures OneField(ext, s, ipfix, scope) == None
  {
    if |s| >= 4 {
      assert f.enterprise != 0 && s[0..2] == Put16(f.ieId + 0x8000);
      assert U16(s, 0) == U16(s[0..2], 0);
    }
  }

  /**
   * A template Set cut in the middle of a template: the templates before the cut are learned, the cut one is not, in
   * any dialect.
   */
  lemma CutTemplateIsNotLearned(ext: Externals, ts: seq<RawTemplate>, t: RawTemplate, d: Dialect, cut: bytes)
    requires TemplatesOk(ts, d) && TemplateOk(t, d) && cut < PrintTemplate(t, d)
    ensures Parse(ext, PrintTemplates(ts, d) + cut, d) == ResolveAll(ext, ts, d)
  {
    CutTemplate(ext, t, d, cut);
    assert Parse(ext, cut, d) == [];
    PrintedBefore(ext, ts, d, cut);
    hide Parse, PrintTemplates, PrintTemplate;
  }

  lemma CutTemplate(ext: Externals, t: RawTemplate, d: Dialect, cut: bytes)
    requires TemplateOk(t, d) && cut < PrintTemplate(t, d)
    ensures One(ext, cut, d) == None
  {
    match d {
      case V9Options => CutOptions(ext, t, cut);
      case _ => CutPlain(ext, t, d, cut);
    }
  }

  lemma CutPlain(ext: Externals, t: RawTemplate, d: Dialect, cut: bytes)
    requires TemplateOk(t, d) && !d.V9Options? && cut < PrintTemplate(t, d)
    ensures One(ext, cut, d) == None
  {
    hide ManyFields, PrintFields, Put16;
    var head := if d.IpfixOptions? then 6 else 4;
    var s := PrintTemplate(t, d);
    var fields := PrintFields(t.fields, IsIpfix(d));
    assert s[head..] == fields;
    if |cut| >= head {
      assert s == Put16(t.id) + Put16(|t.fields|) + s[4..];
      HeadPrinted(t.id, |t.fields|, s[4..]);
      SameHead(cut, s);
      assert cut[head..] < fields;
      CutFields(ext, t.fields, cut[head..], IsIpfix(d), false);
    }
  }

  lemma SameHead(cut: bytes, s: bytes)
    requires cut <= s && |cut| >= 4
    ensures U16(cut, 0) == U16(s, 0) && U16(cut, 2) == U16(s, 2)
    ensures |cut| >= 6 ==> U16(cut, 4) == U16(s, 4)
  {
  }

  lemma CutOptions(ext: Externals, t: RawTemplate, cut: bytes)
    requires TemplateOk(t, V9Options) && cut < PrintTemplate(t, V9Options)
    ensures One(ext, cut, V9Options) == None
  {
    hide ManyFields, PrintFields, Put16;
    if |cut| >= 6 {
      var s, scopes, fields := PrintTemplate(t, V9Options), PrintFields(t.scopes, false), PrintFields(t.fields, false);
      var body := scopes + fields;
      assert s == Put16(t.id) + Put16(4 * |t.scopes|) + (Put16(4 * |t.fields|) + body);
      HeadPrinted(t.id, 4 * |t.scopes|, Put16(4 * |t.fields|) + body);
      ThirdPrinted(s, 4 * |t.fields|, body);
      SameHead(cut, s);
      assert cut[6..] < body;
      if scopes <= cut[6..] {
        var after := cut[6..][|scopes|..];
        assert cut[6..] == scopes + after && after < fields by {
          assert body[|scopes|..] == fields;
        }
        FieldsPrinted(ext, t.scopes, after, false, true);
        CutFields(ext, t.fields, after, false, false);
      } else {
        assert body[..|scopes|] == scopes;
        CutFields(ext, t.scopes, cut[6..], false, true);
      }
    }
  }

  lemma ZerosEndTheList(ext: Externals, ts: seq<RawTemplate>, d: Dialect, pad: bytes)
    requires TemplatesOk(ts, d)
    ensures ZeroAhead(PrintTemplates(ts, d) + pad) ==> ResolveAll(ext, ts, d) == []
  {
    if ts != [] {
      assert TemplateOk(ts[0], d);
      hide PrintTemplate, TemplateOk, ResolveAll, ZeroAhead;
      assert PrintTemplate(ts[0], d) <= PrintTemplates(ts, d) + pad;
      NextIdIsNonzero(ts[0], d, PrintTemplates(ts, d) + pad);
    }
  }

  lemma PaddingEnds(ext: Externals, pad: bytes, d: Dialect)
    requires Padding(pad, d)
    ensures Parse(ext, pad, d) == []
  {
    hide ManyFields;
  }

  lemma NextIdIsNonzero(t: RawTemplate, d: Dialect, s: bytes)
    requires TemplateOk(t, d) && PrintTemplate(t, d) <= s
    ensures !ZeroAhead(s)
  {
    hide PrintFields;
    assert s[0..2] == Put16(t.id);
    assert s[0] == s[0..2][0] && s[1] == s[0..2][1];
  }

  /**
   * Withdrawals (section 8.1 of RFC 7011) are not acted on: a template with no fields defines nothing, removes
   * nothing, and ends its Set, so that templates printed after it are not learned either.
   */
  lemma WithdrawalIsIgnored(
    ext: Externals, c: CacheState, exporter: string, domain: u32, now: i64, ts: seq<RawTemplate>, d: Dialect, id: u16,
    rest: bytes)
    requires IsIpfix(d) && TemplatesOk(ts, d) && id != 0
    ensures Parse(ext, PrintTemplates(ts, d) + (Put16(id) + Put16(0) + rest), d) == ResolveAll(ext, ts, d)
    ensures Learn(c, exporter, domain, Parse(ext, Put16(id) + Put16(0) + rest, d), now) == c
  {
    var w := Put16(id) + Put16(0) + rest;
    HeadPrinted(id, 0, rest);
    assert Parse(ext, w, d) == [];
    PrintedBefore(ext, ts, d, w);
    hide Parse, Upsert, PrintTemplates;
  }
}

/** The entities of the decoder: templates, buffered Data Sets, rows and decode contexts. */
module Flow {
  import opened Wire
  import opened Inet

  datatype Version = NetflowV5 | NetflowV9 | Ipfix | Sflow5

  /** Diagnostic notes; a row carries a list of them, joined by `;` in the source. */
  datatype Diag =
    | MissingTemplate(domain: u32, templateId: u16)
    | Truncated
    | EnterpriseUnmapped
    | BadHeader(version: Version)
    | BadSets(version: Version)
    | NotAcceptedHere(version: Version)
    | NotAFlowDatagram

  datatype TemplateKind = Data | Options

  datatype FieldSpec = FieldSpec(ieId: u16, enterprise: u32, length: u16, name: string, ieType: string) {
    /** `0xFFFF` marks a variable-length element. */
    predicate IsVariable() {
      length == 0xFFFF
    }
  }

  datatype TemplateKey = TemplateKey(exporter: string, domain: u32, templateId: u16)

  datatype TemplateEntry = TemplateEntry(
    kind: TemplateKind,
    fields: seq<FieldSpec>,
    scopeFieldCount: u16,
    firstSeen: i64,
    lastSeen: i64,
    useCount: u64)

  /** A Data Set whose template is not known yet, with the header context it arrived in. */
  datatype PendingRecord = PendingRecord(
    exportTime: Option<i64>,
    sequence: Option<u64>,
    version: Version,
    sysUptime: Option<u64>,
    payload: bytes)

  /** Header context threaded into each row. */
  datatype Ctx = Ctx(
    exporter: string,
    domain: u32,
    version: Version,
    exportTime: Option<i64>,
    sequence: Option<u64>,
    sysUptime: Option<u64>,
    templateId: u16)

  datatype FlowRecord = FlowRecord(
    exporter: string,
    flowVersion: Option<Version>,
    domain: u32,
    templateId: Option<u16>,
    exportTime: Option<i64>,
    sequence: Option<u64>,
    srcAddr: Option<InetVal>,
    dstAddr: Option<InetVal>,
    srcPort: Option<u16>,
    dstPort: Option<u16>,
    protocol: Option<byte>,
    tcpFlags: Option<byte>,
    octets: Option<u64>,
    packets: Option<u64>,
    flowStart: Option<i64>,
    flowEnd: Option<i64>,
    srcAs: Option<u32>,
    dstAs: Option<u32>,
    inputSnmp: Option<u32>,
    outputSnmp: Option<u32>,
    nextHop: Option<InetVal>,
    tos: Option<byte>,
    srcMask: Option<byte>,
    dstMask: Option<byte>,
    samplingRate: Option<u32>,
    direction: Option<byte>,
    rawFields: seq<(string, bytes)>,
    diagnostics: seq<Diag>)
  {
    /** Append a diagnostic note unless it is already there. */
    function Note(d: Diag): FlowRecord {
      if d in diagnostics then this else this.(diagnostics := diagnostics + [d])
    }

    function PutRaw(name: string, value: bytes): FlowRecord {
      this.(rawFields := rawFields + [(name, value)])
    }
  }

  /** A row with only its identifying columns set. */
  function HeaderRow(
    exporter: string, version: Option<Version>, domain: u32, templateId: Option<u16>,
    exportTime: Option<i64>, sequence: Option<u64>): FlowRecord
  {
    FlowRecord(exporter, version, domain, templateId, exportTime, sequence,
      None, None, None, None, None, None, None, None, None, None, None, None, None, None,
      None, None, None, None, None, None, [], [])
  }

  function Diagnostic(
    exporter: string, version: Option<Version>, domain: u32,
    exportTime: Option<i64>, sequence: Option<u64>, d: Diag): FlowRecord
  {
    HeaderRow(exporter, version, domain, None, exportTime, sequence).Note(d)
  }

  /** No flow column is set and nothing is kept raw. */
  predicate NoColumns(r: FlowRecord) {
    && r.srcAddr == r.dstAddr == r.nextHop == None
    && r.srcPort == r.dstPort == None
    && r.protocol == r.tcpFlags == r.tos == r.srcMask == r.dstMask == r.direction == None
    && r.octets == r.packets == None
    && r.flowStart == r.flowEnd == None
    && r.srcAs == r.dstAs == r.inputSnmp == r.outputSnmp == r.samplingRate == None
    && r.rawFields == []
  }

  /** A row that reports one thing, under what is known of its header, and holds nothing else. */
  predicate Reports(
    r: FlowRecord, exporter: string, version: Option<Version>, domain: u32, exportTime: Option<i64>,
    sequence: Option<u64>, d: Diag)
  {
    && r.exporter == exporter && r.flowVersion == version && r.domain == domain && r.templateId == None
    && r.exportTime == exportTime && r.sequence == sequence && r.diagnostics == [d]
    && NoColumns(r)
  }

  lemma DiagnosticReports(
    exporter: string, version: Option<Version>, domain: u32, exportTime: Option<i64>, sequence: Option<u64>, d: Diag)
    ensures Reports(Diagnostic(exporter, version, domain, exportTime, sequence, d), exporter, version, domain,
              exportTime, sequence, d)
  {
  }

  /** Code outside the model: the element registry and the stateless sFlow decoder. */
  datatype Externals = Externals(
    resolve: (u32, u16) -> (string, string),
    sflow: (bytes, string, bool) -> seq<FlowRecord>)
  {
    function Field(enterprise: u32, ieId: u16, length: u16): FieldSpec {
      var (name, ieType) := resolve(enterprise, ieId);
      FieldSpec(ieId, enterprise, length, name, ieType)
    }
  }
}

/** A report as it leaves the collector, its JSON text, and the test that recognises an empty first report. */
module Report {
  import opened Types
  import opened Json

  /** A report value. An object or list that `omitempty` leaves out is `None`, "" or []. */
  datatype Report = Report(
    firstReport: bool,
    version: Option<Json>,
    vendor: string,
    lists: Lists,
    installation: Option<Json>)

  /** The part of the watch handler that reports are made from. */
  datatype ReportState = ReportState(
    firstReport: bool,
    aggregate: bool,
    version: Option<Json>,
    vendor: string,
    pending: Lists)

  // ----- JSON text; one character stands for one byte -----

  datatype Field = Field(name: string, value: Option<Json>)

  /** The fields that are not left out. */
  function Present(fields: seq<Field>): Members {
    if fields == [] then NoMembers
    else if fields[0].value.None? then Present(fields[1..])
    else Member(fields[0].name, fields[0].value.value, Present(fields[1..]))
  }

  function Rendered(entries: seq<Entry>, render: Entry -> Json): Items {
    if entries == [] then NoItems else Item(render(entries[0]), Rendered(entries[1..], render))
  }

  function ListValue(entries: seq<Entry>, render: Entry -> Json): Option<Json> {
    if entries == [] then None else Some(Arr(Rendered(entries, render)))
  }

  /** The fields of the struct that holds the lists of one kind. */
  function ListFields(changes: Changes, render: Entry -> Json): seq<Field> {
    [ Field("create", ListValue(changes.created, render)),
      Field("delete", ListValue(changes.deleted, render)),
      Field("update", ListValue(changes.updated, render)) ]
  }

  function ObjectOf(changes: Changes, render: Entry -> Json): Json {
    Obj(Present(ListFields(changes, render)))
  }

  function KindValue(changes: Changes, render: Entry -> Json): Option<Json> {
    if changes == NO_CHANGES then None else Some(ObjectOf(changes, render))
  }

  function VendorValue(vendor: string): Option<Json> {
    if vendor == "" then None else Some(Str(vendor))
  }

  /** A report whose optional fields are these. */
  function Document(firstReport: bool, fields: seq<Field>): Json {
    Obj(Member("firstReport", Atom(if firstReport then "true" else "false"), Present(fields)))
  }

  /** The optional fields in the order of the struct. */
  function Fields(r: Report, render: Entry -> Json): seq<Field> {
    [ Field("clusterAPIServerVersion", r.version),
      Field("cloudVendor", VendorValue(r.vendor)),
      Field("node", KindValue(r.lists.node, render)),
      Field("service", KindValue(r.lists.service, render)),
      Field("microservice", KindValue(r.lists.microservice, render)),
      Field("pod", KindValue(r.lists.pod, render)),
      Field("secret", KindValue(r.lists.secret, render)),
      Field("namespace", KindValue(r.lists.namespace, render)),
      Field("installationData", r.installation) ]
  }

  /** The text `json.Marshal` produces for a report. */
  function Encode(r: Report, render: Entry -> Json): string {
    Print(Document(r.firstReport, Fields(r, render)))
  }

  const FIRST_REPORT_EMPTY := "{\"firstReport\":true}"

  predicate IsEmptyFirstReport(text: string) {
    |text| == 0 || |text| == 2 || |text| == |FIRST_REPORT_EMPTY|
  }

  /** No delta, no version, no vendor and no installation data. */
  ghost predicate Bare(r: Report) {
    r.version.None? && r.vendor == "" && r.installation.None? && r.lists == NO_ENTRIES
  }

  lemma {:induction false} PresentIsEmpty(fields: seq<Field>)
    ensures Present(fields).NoMembers? <==> forall i :: 0 <= i < |fields| ==> fields[i].value.None?
  {
    if fields != [] {
      PresentIsEmpty(fields[1..]);
      assert forall i :: 0 <= i < |fields[1..]| ==> fields[1..][i] == fields[i + 1];
      assert forall i :: 1 <= i < |fields| ==> fields[i] == fields[1..][i - 1];
    }
  }

  lemma FieldsAreEmpty(r: Report, render: Entry -> Json)
    ensures Present(Fields(r, render)).NoMembers? <==> Bare(r)
  {
    var fields := Fields(r, render);
    PresentIsEmpty(fields);
    if Present(fields).NoMembers? {
      assert fields[0].value.None? && fields[1].value.None? && fields[8].value.None?;
      assert fields[2].value.None? && fields[3].value.None? && fields[4].value.None?;
      assert fields[5].value.None? && fields[6].value.None? && fields[7].value.None?;
    }
  }

  lemma MemberLength(name: string, value: Json, tail: Members)
    ensures |PrintMembers(Member(name, value, tail))| ==
      |name| + 3 + |Print(value)| + (if tail.NoMembers? then 0 else 1 + |PrintMembers(tail)|)
  {
  }

  lemma DocumentLength(firstReport: bool, fields: seq<Field>)
    ensures var n := |Print(Document(firstReport, fields))|;
      n >= 20 && (n == 20 <==> firstReport && Present(fields).NoMembers?)
  {
    MemberLength("firstReport", Atom(if firstReport then "true" else "false"), Present(fields));
  }

  /** The length test is exact: it recognises the reports that say "first report" and nothing else, whatever
      the texts of the entries are. */
  lemma LengthTestIsExact(r: Report, render: Entry -> Json)
    ensures IsEmptyFirstReport(Encode(r, render)) <==> r.firstReport && Bare(r)
  {
    FieldsAreEmpty(r, render);
    DocumentLength(r.firstReport, Fields(r, render));
  }

  /** Only a bare report is skipped, so skipping drops no delta. */
  lemma SkippedReportsAreBare(r: Report, render: Entry -> Json, slot: Slot)
    requires IsEmptyFirstReport(Encode(r, render))
    ensures r.lists.Get(slot) == []
  {
    LengthTestIsExact(r, render);
  }

  // ----- a growing report -----

  function Grown(r: Report, delta: Delta): Report {
    r.(lists := Appended(r.lists, delta))
  }

  function GrownAll(r: Report, deltas: seq<Delta>): Report {
    r.(lists := AppendedAll(r.lists, deltas))
  }

  lemma GrownOneMore(r: Report, deltas: seq<Delta>, d: Delta)
    ensures GrownAll(r, deltas + [d]) == Grown(GrownAll(r, deltas), d)
    ensures GrownAll(r, [d]) == Grown(r, d)
  {
    assert (deltas + [d])[..|deltas|] == deltas;
    assert [d][..0] == [] && AppendedAll(r.lists, [d]) == Appended(AppendedAll(r.lists, []), d);
  }

  // ----- preparing a report -----

  /** The report that is sent for a state whose API version is known. */
  function Snapshot(rs: ReportState, installation: Json): Report {
    if rs.aggregate
    then Report(rs.firstReport, rs.version, rs.vendor, rs.pending, Some(installation))
    else Report(rs.firstReport, None, "", rs.pending, None)
  }

  /** The state after a report was prepared: the lists are taken, and the aggregate flag falls with the first
      report that is not empty. */
  function Prepared(rs: ReportState, text: string): ReportState {
    rs.(pending := NO_ENTRIES, aggregate := rs.aggregate && IsEmptyFirstReport(text))
  }

  /** Whether `prepareDataToSend` produces a report. */
  predicate CanPrepare(rs: ReportState, marshalOk: bool) {
    rs.version.Some? && marshalOk
  }

  /** The guard of `informNewDataArrive`. */
  predicate GuardHolds(rs: ReportState) {
    !rs.aggregate || rs.version.Some?
  }

  /** The state after one pass through the listener's loop, and the report handed over, if any. */
  datatype Pass = Pass(rs: ReportState, report: Option<Report>)

  function ListenerPass(rs: ReportState, installation: Json, render: Entry -> Json, marshalOk: bool): Pass {
    var report := Snapshot(rs, installation);
    var text := Encode(report, render);
    if !CanPrepare(rs, marshalOk) then Pass(rs, None)
    else if IsEmptyFirstReport(text) then Pass(Prepared(rs, text), None)
    else Pass(Prepared(rs, text).(firstReport := false), Some(report))
  }
}

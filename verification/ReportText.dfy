/** What a receiver reads in the text of a report. */
module ReportText {
  import opened Types
  import opened Json
  import opened Report
  import P = Pipeline

  // ----- the receiver's side -----

  const VERSION_KEY := "clusterAPIServerVersion"
  const VENDOR_KEY := "cloudVendor"
  const INSTALLATION_KEY := "installationData"
  const FIRST_REPORT_KEY := "firstReport"

  function KindKey(kind: Kind): string {
    match kind
    case NODE => "node"
    case SERVICES => "service"
    case MICROSERVICES => "microservice"
    case PODS => "pod"
    case SECRETS => "secret"
    case NAMESPACES => "namespace"
  }

  function ChangeKey(change: Change): string {
    match change
    case CREATED => "create"
    case DELETED => "delete"
    case UPDATED => "update"
  }

  /** The value under a key of an object. */
  function At(j: Option<Json>, key: string): Option<Json> {
    if j.Some? && j.value.Obj? then Lookup(j.value.members, key) else None
  }

  /** The value a whole text stands for. */
  function Read(text: string): Option<Json> {
    var p := ParseValue(text);
    if p.Done? && p.rest == "" then Some(p.value) else None
  }

  function ReadField(text: string, key: string): Option<Json> {
    At(Read(text), key)
  }

  function ReadList(text: string, slot: Slot): Option<Json> {
    At(ReadField(text, KindKey(slot.kind)), ChangeKey(slot.change))
  }

  function Elements(items: Items): seq<Json>
    decreases items
  {
    match items
    case NoItems => []
    case Item(head, tail) => [head] + Elements(tail)
  }

  // ----- texts that can be read back: all that `json.Marshal` writes -----

  ghost predicate ReadableEntries(entries: seq<Entry>, render: Entry -> Json) {
    forall e <- entries :: Readable(render(e))
  }

  ghost predicate ReadableReport(r: Report, render: Entry -> Json) {
    && (forall slot: Slot :: ReadableEntries(r.lists.Get(slot), render))
    && (r.version.Some? ==> Readable(r.version.value))
    && IsEscaped(r.vendor)
    && (r.installation.Some? ==> Readable(r.installation.value))
  }

  predicate NeedsNoEscape(text: string) {
    '"' !in text && '\\' !in text
  }

  lemma {:induction false} NoEscapes(text: string)
    requires NeedsNoEscape(text)
    ensures IsEscaped(text)
  {
    if text != "" {
      NoEscapes(text[1..]);
    }
  }

  predicate ReadableField(f: Field) {
    NeedsNoEscape(f.name) && (f.value.Some? ==> Readable(f.value.value))
  }

  lemma MemberReadable(name: string, value: Json, tail: Members)
    requires NeedsNoEscape(name) && Readable(value) && ReadableMembers(tail)
    ensures ReadableMembers(Member(name, value, tail))
  {
    NoEscapes(name);
  }

  lemma {:induction false} PresentReadable(fields: seq<Field>)
    requires forall i :: 0 <= i < |fields| ==> ReadableField(fields[i])
    ensures ReadableMembers(Present(fields))
  {
    if fields != [] {
      assert ReadableField(fields[0]);
      PresentReadable(fields[1..]);
      if fields[0].value.Some? {
        MemberReadable(fields[0].name, fields[0].value.value, Present(fields[1..]));
      }
    }
  }

  lemma {:induction false} RenderedReadable(entries: seq<Entry>, render: Entry -> Json)
    requires ReadableEntries(entries, render)
    ensures ReadableItems(Rendered(entries, render))
  {
    if entries != [] {
      assert entries[0] in entries;
      assert forall e <- entries[1..] :: e in entries;
      RenderedReadable(entries[1..], render);
    }
  }

  lemma {:induction false} RenderedElements(entries: seq<Entry>, render: Entry -> Json)
    ensures var js := Elements(Rendered(entries, render));
      |js| == |entries| && forall i :: 0 <= i < |js| ==> js[i] == render(entries[i])
  {
    if entries != [] {
      RenderedElements(entries[1..], render);
    }
  }

  lemma {:induction false} LookupPresent(fields: seq<Field>, i: nat)
    requires i < |fields| && forall k :: 0 <= k < i ==> fields[k].name != fields[i].name
    requires forall k :: i < k < |fields| ==> fields[k].name != fields[i].name
    ensures Lookup(Present(fields), fields[i].name) == fields[i].value
  {
    if i > 0 {
      LookupPresent(fields[1..], i - 1);
    } else if fields[0].value.None? {
      LookupMissing(fields[1..], fields[0].name);
    }
  }

  lemma {:induction false} LookupMissing(fields: seq<Field>, name: string)
    requires forall k :: 0 <= k < |fields| ==> fields[k].name != name
    ensures Lookup(Present(fields), name).None?
  {
    if fields != [] {
      LookupMissing(fields[1..], name);
    }
  }

  // ----- one kind -----

  lemma ChangeKeysNeedNoEscape()
    ensures NeedsNoEscape("create") && NeedsNoEscape("delete") && NeedsNoEscape("update")
  {
  }

  lemma KindReadable(changes: Changes, render: Entry -> Json)
    requires forall change: Change :: ReadableEntries(changes.Get(change), render)
    ensures Readable(ObjectOf(changes, render))
  {
    var fields := ListFields(changes, render);
    ChangeKeysNeedNoEscape();
    RenderedReadable(changes.Get(CREATED), render);
    RenderedReadable(changes.Get(DELETED), render);
    RenderedReadable(changes.Get(UPDATED), render);
    assert ReadableField(fields[0]) && ReadableField(fields[1]) && ReadableField(fields[2]);
    PresentReadable(fields);
  }

  lemma KindLookup(changes: Changes, render: Entry -> Json, change: Change)
    ensures At(KindValue(changes, render), ChangeKey(change)) == ListValue(changes.Get(change), render)
  {
    if changes != NO_CHANGES {
      var fields := ListFields(changes, render);
      LookupPresent(fields, match change case CREATED => 0 case DELETED => 1 case UPDATED => 2);
    }
  }

  // ----- the whole report -----

  /** The position of a kind among the fields of the struct. */
  function FieldIndex(kind: Kind): nat {
    match kind
    case NODE => 2
    case SERVICES => 3
    case MICROSERVICES => 4
    case PODS => 5
    case SECRETS => 6
    case NAMESPACES => 7
  }

  function KindOfField(i: nat): Kind {
    match i
    case 2 => NODE
    case 3 => SERVICES
    case 4 => MICROSERVICES
    case 5 => PODS
    case 6 => SECRETS
    case _ => NAMESPACES
  }

  lemma ScalarKeysNeedNoEscape()
    ensures NeedsNoEscape("clusterAPIServerVersion") && NeedsNoEscape("cloudVendor")
    ensures NeedsNoEscape("installationData")
  {
  }

  lemma KindKeysNeedNoEscape()
    ensures NeedsNoEscape("node") && NeedsNoEscape("service") && NeedsNoEscape("microservice")
    ensures NeedsNoEscape("pod") && NeedsNoEscape("secret") && NeedsNoEscape("namespace")
  {
  }

  lemma KindValueReadable(r: Report, render: Entry -> Json, kind: Kind)
    requires ReadableReport(r, render)
    ensures var value := KindValue(r.lists.Of(kind), render); value.Some? ==> Readable(value.value)
  {
    assert forall change: Change :: r.lists.Get(Slot(kind, change)) == r.lists.Of(kind).Get(change);
    KindReadable(r.lists.Of(kind), render);
  }

  lemma KindField(r: Report, render: Entry -> Json, kind: Kind)
    ensures Fields(r, render)[FieldIndex(kind)] == Field(KindKey(kind), KindValue(r.lists.Of(kind), render))
  {
    match kind
    case NODE =>
    case SERVICES =>
    case MICROSERVICES =>
    case PODS =>
    case SECRETS =>
    case NAMESPACES =>
  }

  lemma ScalarFieldReadable(r: Report, render: Entry -> Json, i: nat)
    requires ReadableReport(r, render) && (i < 2 || i == 8)
    ensures ReadableField(Fields(r, render)[i])
  {
    ScalarKeysNeedNoEscape();
  }

  lemma FieldReadable(r: Report, render: Entry -> Json, i: nat)
    requires ReadableReport(r, render) && i < 9
    ensures ReadableField(Fields(r, render)[i])
  {
    if 2 <= i < 8 {
      var kind := KindOfField(i);
      KindKeysNeedNoEscape();
      assert NeedsNoEscape(KindKey(kind)) && FieldIndex(kind) == i;
      KindField(r, render, kind);
      KindValueReadable(r, render, kind);
    } else {
      ScalarFieldReadable(r, render, i);
    }
  }

  lemma DocumentReadable(firstReport: bool, fields: seq<Field>)
    requires forall i :: 0 <= i < |fields| ==> ReadableField(fields[i])
    ensures Readable(Document(firstReport, fields))
  {
    PresentReadable(fields);
    var value := Atom(if firstReport then "true" else "false");
    MemberReadable("firstReport", value, Present(fields));
  }

  lemma ReportReadable(r: Report, render: Entry -> Json)
    requires ReadableReport(r, render)
    ensures Readable(Document(r.firstReport, Fields(r, render)))
  {
    var fields := Fields(r, render);
    assert |fields| == 9;
    forall i | 0 <= i < |fields| ensures ReadableField(fields[i]) {
      FieldReadable(r, render, i);
    }
    DocumentReadable(r.firstReport, fields);
  }

  lemma DocumentRead(r: Report, render: Entry -> Json)
    requires ReadableReport(r, render)
    ensures Read(Encode(r, render)) == Some(Document(r.firstReport, Fields(r, render)))
  {
    ReportReadable(r, render);
    TextIsReadBack(Document(r.firstReport, Fields(r, render)));
  }

  lemma NamesDiffer(r: Report, render: Entry -> Json, i: nat, k: nat)
    requires i < 9 && k < 9 && i != k
    ensures Fields(r, render)[i].name != Fields(r, render)[k].name
  {
    var lengths := [23, 11, 4, 7, 12, 3, 6, 9, 16];
    assert |Fields(r, render)[i].name| == lengths[i] && |Fields(r, render)[k].name| == lengths[k];
  }

  lemma FieldFound(firstReport: bool, fields: seq<Field>, i: nat)
    requires i < |fields| && fields[i].name != "firstReport"
    requires forall k :: 0 <= k < |fields| && k != i ==> fields[k].name != fields[i].name
    ensures At(Some(Document(firstReport, fields)), fields[i].name) == fields[i].value
  {
    LookupPresent(fields, i);
  }

  lemma FieldRead(r: Report, render: Entry -> Json, i: nat)
    requires ReadableReport(r, render) && i < 9
    ensures ReadField(Encode(r, render), Fields(r, render)[i].name) == Fields(r, render)[i].value
  {
    DocumentRead(r, render);
    var fields := Fields(r, render);
    forall k | 0 <= k < 9 && k != i ensures fields[k].name != fields[i].name {
      NamesDiffer(r, render, k, i);
    }
    FieldFound(r.firstReport, fields, i);
  }

  lemma KindRead(r: Report, render: Entry -> Json, kind: Kind)
    requires ReadableReport(r, render)
    ensures ReadField(Encode(r, render), KindKey(kind)) == KindValue(r.lists.Of(kind), render)
  {
    KindField(r, render, kind);
    FieldRead(r, render, FieldIndex(kind));
  }

  /** Under its two keys, the text of a report holds exactly the entries of that one list, in order; the keys are
      missing exactly when the list is empty. */
  lemma ListsReadBack(r: Report, render: Entry -> Json, slot: Slot)
    requires ReadableReport(r, render)
    ensures var entries := r.lists.Get(slot);
      match ReadList(Encode(r, render), slot)
      case None => entries == []
      case Some(Arr(items)) =>
        && entries != [] && |Elements(items)| == |entries|
        && forall i :: 0 <= i < |entries| ==> Elements(items)[i] == render(entries[i])
      case Some(_) => false
  {
    KindRead(r, render, slot.kind);
    KindLookup(r.lists.Of(slot.kind), render, slot.change);
    RenderedElements(r.lists.Get(slot), render);
  }

  lemma NothingToReport(changes: Changes)
    ensures changes == NO_CHANGES <==> forall change: Change :: changes.Get(change) == []
  {
    if forall change: Change :: changes.Get(change) == [] {
      assert changes.Get(CREATED) == [] && changes.Get(DELETED) == [] && changes.Get(UPDATED) == [];
    }
  }

  /** A kind with nothing to report has no key at all. */
  lemma KindsReadBack(r: Report, render: Entry -> Json, kind: Kind)
    requires ReadableReport(r, render)
    ensures ReadField(Encode(r, render), KindKey(kind)).None? <==>
      forall change: Change :: r.lists.Get(Slot(kind, change)) == []
  {
    KindRead(r, render, kind);
    NothingToReport(r.lists.Of(kind));
    assert forall change: Change :: r.lists.Get(Slot(kind, change)) == r.lists.Of(kind).Get(change);
  }

  /** The version, the vendor, the installation data and the first-report flag are read back under their own keys. */
  lemma ScalarsReadBack(r: Report, render: Entry -> Json)
    requires ReadableReport(r, render)
    ensures var text := Encode(r, render);
      && ReadField(text, VERSION_KEY) == r.version
      && ReadField(text, INSTALLATION_KEY) == r.installation
      && ReadField(text, VENDOR_KEY) == (if r.vendor == "" then None else Some(Str(r.vendor)))
      && ReadField(text, FIRST_REPORT_KEY) == Some(Atom(if r.firstReport then "true" else "false"))
  {
    FieldRead(r, render, 0);
    FieldRead(r, render, 1);
    FieldRead(r, render, 8);
    DocumentRead(r, render);
  }

  // ----- all the reports of a run -----

  /** The entries under the two keys; none if the keys are missing. */
  function ReadEntries(text: string, slot: Slot): seq<Json> {
    match ReadList(text, slot)
    case Some(Arr(items)) => Elements(items)
    case _ => []
  }

  function RenderAll(entries: seq<Entry>, render: Entry -> Json): seq<Json> {
    seq(|entries|, i requires 0 <= i < |entries| => render(entries[i]))
  }

  lemma EntriesReadBack(r: Report, render: Entry -> Json, slot: Slot)
    requires ReadableReport(r, render)
    ensures ReadEntries(Encode(r, render), slot) == RenderAll(r.lists.Get(slot), render)
  {
    ListsReadBack(r, render, slot);
  }

  /** The texts of the reports, in the order they were handed to the socket. */
  function Texts(sent: seq<Report>, render: Entry -> Json): seq<string> {
    seq(|sent|, i requires 0 <= i < |sent| => Encode(sent[i], render))
  }

  /** One list, read from one text after the other. */
  function ReadAll(texts: seq<string>, slot: Slot): seq<Json> {
    if texts == [] then []
    else ReadAll(texts[..|texts| - 1], slot) + ReadEntries(texts[|texts| - 1], slot)
  }

  lemma ReadOneMore(sent: seq<Report>, render: Entry -> Json, slot: Slot)
    requires sent != []
    ensures var n := |sent| - 1;
      ReadAll(Texts(sent, render), slot) ==
        ReadAll(Texts(sent[..n], render), slot) + ReadEntries(Encode(sent[n], render), slot)
  {
    var n := |sent| - 1;
    var texts := Texts(sent, render);
    assert texts[..n] == Texts(sent[..n], render) && texts[n] == Encode(sent[n], render);
  }

  lemma RenderConcat(a: seq<Entry>, b: seq<Entry>, render: Entry -> Json)
    ensures RenderAll(a + b, render) == RenderAll(a, render) + RenderAll(b, render)
  {
  }

  lemma {:induction false} DeliveredReadsBack(sent: seq<Report>, render: Entry -> Json, slot: Slot)
    requires forall r <- sent :: ReadableReport(r, render)
    ensures ReadAll(Texts(sent, render), slot) == RenderAll(P.Delivered(sent, slot), render)
    decreases |sent|
  {
    if sent != [] {
      var n := |sent| - 1;
      DeliveredReadsBack(sent[..n], render, slot);
      EntriesReadBack(sent[n], render, slot);
      ReadOneMore(sent, render, slot);
      RenderConcat(P.Delivered(sent[..n], slot), sent[n].lists.Get(slot), render);
    }
  }

  /** When the listener waits and no handler that appended to the kind is still informing, a receiver who reads the
      texts alone has every entry ever appended to the kind's lists, each once, in order. */
  lemma ReceiverReadsEverything(env: P.Env, s: P.State, slot: Slot)
    requires P.AppendsFirst(slot.kind) && P.Reachable(env, s)
    requires s.listener.Waiting? && !P.SomeInforming(s, slot.kind)
    requires forall r <- s.sent :: ReadableReport(r, env.render)
    ensures ReadAll(Texts(s.sent, env.render), slot) == RenderAll(s.appended.Get(slot), env.render)
  {
    P.QuietMeansDelivered(env, s, slot);
    DeliveredReadsBack(s.sent, env.render, slot);
  }
}

/** The values that flow through the collector: pods, owners, tracked records and report entries. */
module Types {

  datatype Option<+T> = None | Some(value: T) {
    function GetOr(default: T): T {
      match this
      case Some(v) => v
      case None => default
    }
  }

  /** A point in time. Only the order of times matters. */
  type Time = int

  /** What Kubernetes says about one container: a reason for each of the states that is set. */
  datatype ContainerStatus = ContainerStatus(
    imageID: string,
    terminated: Option<string>,
    waiting: Option<string>,
    running: bool)

  datatype Pod = Pod(
    uid: string,
    name: string,
    generateName: string,
    namespace: string,
    nodeName: string,
    podIP: string,
    created: Time,
    deletion: Option<Time>,
    containers: seq<ContainerStatus>,
    phase: string)

  /** The owner object fetched from the API server. `identity` is the whole object, `spec` its "spec"
      field when it has one; both in a canonical text form, so that text equality is deep equality. */
  datatype OwnerData = NoData | Data(identity: string, spec: Option<string>)

  datatype OwnerDet = OwnerDet(name: string, kind: string, data: OwnerData)

  /** What the collector compares to decide that two pods belong to the same microservice. */
  datatype PodSpec = NoSpec | SpecField(text: string) | WholeObject(identity: string)

  function ExtractPodSpecFromOwner(data: OwnerData): PodSpec {
    match data
    case NoData => NoSpec
    case Data(identity, None) => WholeObject(identity)
    case Data(identity, Some(text)) => SpecField(text)
  }

  datatype MicroServiceData = MicroServiceData(pod: Pod, owner: OwnerDet, podSpecId: int)

  datatype PodRecord = PodRecord(
    podName: string,
    nodeName: string,
    podIP: string,
    namespace: string,
    ownerName: string,
    ownerKind: string,
    podStatus: string,
    created: Time,
    deletion: Option<Time>)

  /** The name a pod is tracked under. */
  function TrackedName(pod: Pod): string {
    if pod.name == "" then pod.generateName else pod.name
  }

  function ImageIDs(containers: seq<ContainerStatus>): (ids: seq<string>)
    ensures |ids| == |containers| && forall i :: 0 <= i < |ids| ==> ids[i] == containers[i].imageID
  {
    seq(|containers|, i requires 0 <= i < |containers| => containers[i].imageID)
  }

  datatype Secret = Secret(
    namespace: string,
    name: string,
    generateName: string,
    created: Time,
    data: Option<string>,
    annotations: map<string, string>)

  datatype Entry =
    | PodEntry(record: PodRecord)
    | MicroEntry(service: MicroServiceData)
    | SecretEntry(secret: Secret)
    | OtherEntry(text: string)

  datatype Kind = NODE | SERVICES | MICROSERVICES | PODS | SECRETS | NAMESPACES

  const KINDS := {NODE, SERVICES, SECRETS, PODS, MICROSERVICES, NAMESPACES}

  datatype Change = CREATED | DELETED | UPDATED

  /** One of the 18 lists of a report. */
  datatype Slot = Slot(kind: Kind, change: Change)

  datatype Delta = Delta(slot: Slot, entry: Entry)

  /** The lists of one kind. */
  datatype Changes = Changes(created: seq<Entry>, deleted: seq<Entry>, updated: seq<Entry>) {
    function Get(change: Change): seq<Entry> {
      match change
      case CREATED => created
      case DELETED => deleted
      case UPDATED => updated
    }

    function Append(change: Change, entry: Entry): Changes {
      match change
      case CREATED => this.(created := created + [entry])
      case DELETED => this.(deleted := deleted + [entry])
      case UPDATED => this.(updated := updated + [entry])
    }
  }

  /** The contents of all 18 lists. */
  datatype Lists = Lists(
    node: Changes,
    service: Changes,
    microservice: Changes,
    pod: Changes,
    secret: Changes,
    namespace: Changes)
  {
    function Of(kind: Kind): Changes {
      match kind
      case NODE => node
      case SERVICES => service
      case MICROSERVICES => microservice
      case PODS => pod
      case SECRETS => secret
      case NAMESPACES => namespace
    }

    function Get(slot: Slot): seq<Entry> {
      Of(slot.kind).Get(slot.change)
    }
  }

  const NO_CHANGES := Changes([], [], [])
  const NO_ENTRIES := Lists(NO_CHANGES, NO_CHANGES, NO_CHANGES, NO_CHANGES, NO_CHANGES, NO_CHANGES)

  /** The lists after one more entry. */
  function Appended(l: Lists, delta: Delta): Lists {
    var changes := l.Of(delta.slot.kind).Append(delta.slot.change, delta.entry);
    match delta.slot.kind
    case NODE => l.(node := changes)
    case SERVICES => l.(service := changes)
    case MICROSERVICES => l.(microservice := changes)
    case PODS => l.(pod := changes)
    case SECRETS => l.(secret := changes)
    case NAMESPACES => l.(namespace := changes)
  }

  lemma AppendedGet(l: Lists, delta: Delta, slot: Slot)
    ensures Appended(l, delta).Get(slot) == if slot == delta.slot then l.Get(slot) + [delta.entry] else l.Get(slot)
  {
  }

  function AppendedAll(l: Lists, deltas: seq<Delta>): Lists {
    if deltas == [] then l
    else Appended(AppendedAll(l, deltas[..|deltas| - 1]), deltas[|deltas| - 1])
  }

  /** The entries among `deltas` that belong to one list, in order. */
  function EntriesOf(deltas: seq<Delta>, slot: Slot): seq<Entry> {
    if deltas == [] then []
    else
      var rest := EntriesOf(deltas[..|deltas| - 1], slot);
      var last := deltas[|deltas| - 1];
      if last.slot == slot then rest + [last.entry] else rest
  }

  lemma EntriesOfOne(d: Delta, slot: Slot)
    ensures EntriesOf([d], slot) == if d.slot == slot then [d.entry] else []
  {
  }

  lemma {:induction false} EntriesOfConcat(a: seq<Delta>, b: seq<Delta>, slot: Slot)
    ensures EntriesOf(a + b, slot) == EntriesOf(a, slot) + EntriesOf(b, slot)
    decreases |b|
  {
    if b == [] {
      assert a + b == a;
    } else {
      EntriesOfConcat(a, b[..|b| - 1], slot);
      assert (a + b)[..|a + b| - 1] == a + b[..|b| - 1];
    }
  }

  lemma AnyOf<T>(s: set<T>) returns (x: T)
    requires s != {}
    ensures x in s
  {
    x :| x in s;
  }
}

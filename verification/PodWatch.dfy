/** What one event of a pod watch session does to the pod index, as a function of values, and what whole
    streams of events keep. */
module PodWatch {
  import opened Types
  import opened PodIndex
  import opened PodStatus

  datatype WatchType = Added | Modified | Deleted | Bookmark

  /** One turn of the pod watch loop, or one step of another goroutine that touches the index or the ids.
      `now` is what the clock shows during the turn. `owner` is the result of the owner lookup, None if it
      failed; `gone` and `order` are the answers of the API server and the visiting order of map scans. */
  datatype Event =
    | SessionEnds(now: Time)
    | NotAPod
    | PodSeen(typ: WatchType, pod: Pod, owner: Option<OwnerDet>, gone: Gone, order: seq<int>, now: Time)
    | CronJobAdded
    | IdTaken

  /** `nextId`: the counter of the id database; `watermark`: pods created before it are not reported. */
  datatype State = State(pdm: Index, nextId: int, watermark: Time)

  datatype Outcome = Outcome(st: State, deltas: seq<Delta>, panicked: bool)

  predicate Watched(namespaces: seq<string>, namespace: string) {
    exists i :: 0 <= i < |namespaces| && (namespaces[i] == "" || namespaces[i] == namespace)
  }

  method IsNamespaceWatched(includeNamespaces: seq<string>, namespace: string) returns (watched: bool)
    ensures watched <==> Watched(includeNamespaces, namespace)
    ensures watched <==> "" in includeNamespaces || namespace in includeNamespaces
  {
    for nsIdx := 0 to |includeNamespaces|
      invariant !Watched(includeNamespaces[..nsIdx], namespace)
    {
      if includeNamespaces[nsIdx] == "" || includeNamespaces[nsIdx] == namespace {
        return true;
      }
    }
    assert includeNamespaces[..|includeNamespaces|] == includeNamespaces;
    return false;
  }

  // ----- report entries -----

  function CreatedRecord(pod: Pod, owner: OwnerDet): PodRecord {
    PodRecord(TrackedName(pod), pod.nodeName, pod.podIP, pod.namespace, owner.name, owner.kind,
              StatusOf(pod), pod.created, None)
  }

  function UpdatedRecord(pod: Pod, tracked: PodRecord): PodRecord {
    PodRecord(pod.name, pod.nodeName, pod.podIP, pod.namespace, tracked.ownerName, tracked.ownerKind,
              StatusOf(pod), pod.created, None)
  }

  function DeletedRecord(pod: Pod, owner: OwnerDet): PodRecord {
    PodRecord(pod.name, pod.nodeName, pod.podIP, pod.namespace, owner.name, owner.kind,
              "Terminating", pod.created, pod.deletion)
  }

  function PodDelta(change: Change, record: PodRecord): Delta {
    Delta(Slot(PODS, change), PodEntry(record))
  }

  function MicroDelta(change: Change, service: MicroServiceData): Delta {
    Delta(Slot(MICROSERVICES, change), MicroEntry(service))
  }

  // ----- one event -----

  function OwnerKey(pod: Pod, owner: OwnerDet): Key {
    Key(pod.namespace, ExtractPodSpecFromOwner(owner.data))
  }

  function HandleAdded(st: State, pod: Pod, owner: OwnerDet, order: seq<int>, now: Time): Outcome
    requires Shape(st.pdm) && IsOrder(order, st.pdm)
  {
    var record := CreatedRecord(pod, owner);
    if pod.created < st.watermark then Outcome(st, [], false)
    else
      match FindSpec(st.pdm, order, OwnerKey(pod, owner))
      case None =>
        var id := st.nextId;
        var service := MicroServiceData(pod, owner, id);
        Outcome(st.(pdm := st.pdm[id := [Header(service), Record(record)]], nextId := id + 1),
                [MicroDelta(CREATED, service), PodDelta(CREATED, record)], false)
      case Some(id) =>
        if Holds(st.pdm[id], TrackedName(pod)) then Outcome(st.(watermark := now), [], false)
        else Outcome(st.(pdm := st.pdm[id := st.pdm[id] + [Record(record)]]), [PodDelta(CREATED, record)], false)
  }

  /** The bucket for an added pod: that of its microservice, or a new one, whose microservice is then reported.
      `first`: the pod is new to the bucket. */
  datatype Bucketed = Bucketed(id: int, first: bool, pdm: Index, nextId: int, reported: seq<Delta>)

  function BucketFor(st: State, pod: Pod, owner: OwnerDet, order: seq<int>): (b: Bucketed)
    requires Shape(st.pdm) && IsOrder(order, st.pdm)
    ensures b.id in b.pdm
  {
    match FindSpec(st.pdm, order, OwnerKey(pod, owner))
    case None =>
      var service := MicroServiceData(pod, owner, st.nextId);
      Bucketed(st.nextId, true, st.pdm[st.nextId := [Header(service)]], st.nextId + 1,
               [MicroDelta(CREATED, service)])
    case Some(id) => Bucketed(id, !Holds(st.pdm[id], TrackedName(pod)), st.pdm, st.nextId, [])
  }

  /** An added pod that is not too old is handled in two steps: its bucket is found, then it joins. */
  lemma AddedInSteps(st: State, pod: Pod, owner: OwnerDet, order: seq<int>, now: Time)
    requires Shape(st.pdm) && IsOrder(order, st.pdm) && pod.created >= st.watermark
    ensures var b, record := BucketFor(st, pod, owner, order), CreatedRecord(pod, owner);
      HandleAdded(st, pod, owner, order, now) ==
        if b.first then
          Outcome(State(b.pdm[b.id := b.pdm[b.id] + [Record(record)]], b.nextId, st.watermark),
                  b.reported + [PodDelta(CREATED, record)], false)
        else Outcome(st.(watermark := now), [], false)
  {
    var header, record := Header(MicroServiceData(pod, owner, st.nextId)), Record(CreatedRecord(pod, owner));
    assert [header] + [record] == [header, record];
  }

  function HandleModified(st: State, pod: Pod, order: seq<int>, now: Time): Outcome
    requires IsOrder(order, st.pdm)
  {
    if pod.deletion.Some? then Outcome(st.(watermark := now), [], false)
    else
      match FindRecord(st.pdm, order, pod.name)
      case None => Outcome(st, [], false)
      case Some(record) => Outcome(st, [PodDelta(UPDATED, UpdatedRecord(pod, record))], false)
  }

  /** What is reported about a removed pod. */
  function RemovalReport(pod: Pod, owner: OwnerDet, podSpecId: int, removed: bool): seq<Delta> {
    var pods := [PodDelta(DELETED, DeletedRecord(pod, owner))];
    var micro := if removed then [MicroDelta(DELETED, MicroServiceData(pod, owner, podSpecId))] else [];
    pods + micro
  }

  function HandleDeleted(st: State, pod: Pod, gone: Gone, order: seq<int>): Outcome
    requires Shape(st.pdm) && IsOrder(order, st.pdm)
  {
    var r := RemoveScan(st.pdm, order, pod.name, pod.generateName, gone);
    var next := st.(pdm := r.pdm);
    if r.panicked || r.podSpecId == -1 then Outcome(next, [], r.panicked)
    else Outcome(next, RemovalReport(pod, r.owner, r.podSpecId, r.removed), false)
  }

  /** An event of a pod in a watched namespace whose owner is known. */
  function HandleWatched(
      st: State, typ: WatchType, pod: Pod, owner: OwnerDet, gone: Gone, order: seq<int>, now: Time): Outcome
    requires Shape(st.pdm) && IsOrder(order, st.pdm)
  {
    match typ
    case Added => HandleAdded(st, pod, owner, order, now)
    case Modified => HandleModified(st, pod, order, now)
    case Deleted => HandleDeleted(st, pod, gone, order)
    case Bookmark => Outcome(st, [], false)
  }

  predicate OrderOk(st: State, e: Event) {
    e.PodSeen? ==> IsOrder(e.order, st.pdm)
  }

  function Handle(namespaces: seq<string>, st: State, e: Event): Outcome
    requires Shape(st.pdm) && OrderOk(st, e)
  {
    match e
    case SessionEnds(now) => Outcome(st.(watermark := now), [], false)
    case NotAPod => Outcome(st, [], false)
    case CronJobAdded => Outcome(st.(pdm := st.pdm[st.nextId := []], nextId := st.nextId + 1), [], false)
    case IdTaken => Outcome(st.(nextId := st.nextId + 1), [], false)
    case PodSeen(typ, pod, owner, gone, order, now) =>
      if !Watched(namespaces, pod.namespace) then Outcome(st, [], false)
      else if owner.None? then Outcome(st.(watermark := now), [], false)
      else HandleWatched(st, typ, pod, owner.value, gone, order, now)
  }

  /** The event ends its session: the channel closed, a new state was requested, an error event came, or the
      owner lookup failed. */
  predicate Ends(namespaces: seq<string>, e: Event) {
    e.SessionEnds? || (e.PodSeen? && Watched(namespaces, e.pod.namespace) && e.owner.None?)
  }

  // ----- what every event keeps -----

  ghost predicate Inv(st: State) {
    && Shape(st.pdm)
    && DistinctKeys(st.pdm)
    && (forall id <- st.pdm :: 0 <= id < st.nextId)
    && st.nextId >= 0
  }

  function Start(): State {
    State(map[], 0, 0)
  }

  lemma AddedInv(st: State, pod: Pod, owner: OwnerDet, order: seq<int>, now: Time)
    requires Inv(st) && IsOrder(order, st.pdm)
    ensures Inv(HandleAdded(st, pod, owner, order, now).st)
  {
  }

  lemma DeletedInv(st: State, pod: Pod, gone: Gone, order: seq<int>)
    requires Inv(st) && IsOrder(order, st.pdm)
    ensures Inv(HandleDeleted(st, pod, gone, order).st)
  {
    var pdm := HandleDeleted(st, pod, gone, order).st.pdm;
    forall id <- pdm
      ensures BucketShape(id, pdm[id]) && forall key :: Matches(pdm[id], key) ==> Matches(st.pdm[id], key)
    {
      RemoveScanEachBucket(st.pdm, order, pod.name, pod.generateName, gone, id);
      if pdm[id] != st.pdm[id] {
        BucketAfterShape(id, st.pdm[id], pod.name, pod.generateName, gone);
      }
    }
  }

  /** After every event, whatever came before and whatever the visiting orders and API answers are, and also when
      the handling panics half-way: every list is empty or a header with its own id followed by differently named
      pods, no two microservices with pods share a key, and the next id is not in use. */
  lemma HandleInv(namespaces: seq<string>, st: State, e: Event)
    requires Inv(st) && OrderOk(st, e)
    ensures Inv(Handle(namespaces, st, e).st)
  {
    if e.PodSeen? && e.owner.Some? && Watched(namespaces, e.pod.namespace) {
      match e.typ
      case Added => AddedInv(st, e.pod, e.owner.value, e.order, e.now);
      case Deleted => DeletedInv(st, e.pod, e.gone, e.order);
      case _ =>
    }
  }
}

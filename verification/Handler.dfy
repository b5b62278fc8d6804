/** The watch handler: the object whose methods the goroutines run. Each method is proved against the functions
    on values of the other modules. */
module Handler {
  import opened Types
  import opened Json
  import opened Report
  import opened JsonFormat
  import opened PodIndex
  import opened PodWatch
  import opened PodStatus
  import opened Turns
  import C = CronJobs
  import R = PodReports
  import Candidates
  import Ids
  import RM = ResourceMap
  import Secrets

  class WatchHandler {
    const config: Json
    const includeNamespaces: seq<string>
    const collectorCreationTime: Time
    const jsonReport: JsonFormat
    const ids: Ids.IdDataBase
    const candidates: Candidates.CandidateList
    var clusterAPIServerVersion: Option<Json>
    var cloudVendor: string
    var aggregateFirstDataFlag: bool
    var pdm: Index
    var ndm: map<int, seq<Entry>>
    var sdm: map<int, seq<Entry>>
    var cjm: map<int, seq<Entry>>
    var secretdm: RM.ResourceMap<Secrets.SecretObject>
    var namespacedm: RM.ResourceMap<Entry>
    /** The channels on which the watchers learn of a reset, by number. */
    var newStateReportChans: seq<nat>

    constructor (config: Json, componentNamespace: string, now: Time)
      ensures Valid() && ReportView() == ReportState(true, true, None, "", NO_ENTRIES)
      ensures View(0).index == Start() && candidates.View() == [] && includeNamespaces == [componentNamespace]
    {
      this.config, includeNamespaces, collectorCreationTime := config, [componentNamespace], now;
      jsonReport := new JsonFormat(true);
      ids := new Ids.IdDataBase();
      candidates := new Candidates.CandidateList();
      clusterAPIServerVersion, cloudVendor, aggregateFirstDataFlag := None, "", true;
      pdm, ndm, sdm, cjm := map[], map[], map[], map[];
      secretdm := new RM.ResourceMap<Secrets.SecretObject>();
      namespacedm := new RM.ResourceMap<Entry>();
      newStateReportChans := [];
    }

    // ----- views -----

    ghost function ReportView(): ReportState
      reads this, jsonReport, jsonReport.data.Values
    {
      ReportState(jsonReport.firstReport, aggregateFirstDataFlag, clusterAPIServerVersion, cloudVendor,
                  jsonReport.Contents())
    }

    /** `watermark` is the watcher's own. */
    ghost function View(watermark: Time): Tracking
      reads this, ids, jsonReport, jsonReport.data.Values
    {
      Tracking(State(pdm, ids.counter, watermark), jsonReport.Wire())
    }

    ghost function PodView(watermark: Time): World
      reads this, ids, jsonReport, jsonReport.data.Values, candidates, candidates.items
    {
      World(View(watermark), candidates.View())
    }

    ghost predicate ReportValid()
      reads this, jsonReport
    {
      && jsonReport.Valid()
      && jsonReport.clusterAPIServerVersion == None && jsonReport.cloudVendor == ""
      && jsonReport.installationData == None
    }

    ghost predicate PartsValid()
      reads jsonReport, ids, candidates, candidates.items
    {
      jsonReport.Valid() && Ids.Sound(ids.Contents()) && candidates.Valid()
    }

    ghost predicate Valid()
      reads this, ids, jsonReport, jsonReport.data.Values, candidates, candidates.items
    {
      PartsValid() && Sound(View(0))
    }

    /** All the indexes. */
    ghost function Indexes(): (Index, map<int, seq<Entry>>, map<int, seq<Entry>>, map<int, seq<Entry>>,
                               map<int, seq<Secrets.SecretObject>>, map<int, seq<Entry>>)
      reads this, secretdm, namespacedm
    {
      (pdm, ndm, sdm, cjm, secretdm.resourceMap, namespacedm.resourceMap)
    }

    // ----- reports -----

    /** A new connection raises the flag again: all indexes start anew, and every watcher is told, in the order in
        which they registered. `signalled`: the channels a signal was sent on. */
    method SetFirstReportFlag(first: bool) returns (signalled: seq<nat>)
      modifies this`pdm, this`ndm, this`sdm, this`cjm, this`secretdm, this`namespacedm, jsonReport`firstReport
      ensures jsonReport.firstReport == first
      ensures var reset := first && !old(jsonReport.firstReport);
        && signalled == (if reset then newStateReportChans else [])
        && Indexes() == if reset then (map[], map[], map[], map[], map[], map[]) else old(Indexes())
    {
      signalled := [];
      if jsonReport.firstReport == first {
        return;
      }
      jsonReport.firstReport := first;
      if first {
        ndm, pdm, sdm, cjm := map[], map[], map[], map[];
        secretdm := new RM.ResourceMap<Secrets.SecretObject>();
        namespacedm := new RM.ResourceMap<Entry>();
        for chanIdx := 0 to |newStateReportChans|
          invariant signalled == newStateReportChans[..chanIdx]
          invariant Indexes() == (map[], map[], map[], map[], map[], map[])
        {
          signalled := signalled + [newStateReportChans[chanIdx]];
        }
      }
    }

    /** A copy of the report record, with what only the first report carries. */
    method FilledCopy() returns (copy: JsonFormat)
      requires ReportValid() && clusterAPIServerVersion.Some?
      ensures fresh(copy) && copy.data == jsonReport.data
      ensures copy.Wire() == Snapshot(ReportView(), config)
    {
      copy := new JsonFormat.Copy(jsonReport);
      if aggregateFirstDataFlag {
        copy.installationData := Some(config);
        copy.clusterAPIServerVersion := clusterAPIServerVersion;
        copy.cloudVendor := cloudVendor;
      } else {
        copy.clusterAPIServerVersion := None;
        copy.cloudVendor := "";
      }
      assert copy.Contents() == jsonReport.Contents();
    }

    /** The text of the report that is sent: that of a copy that shares its lists with the live report. */
    method OutgoingText(render: Entry -> Json) returns (json: string)
      requires ReportValid() && clusterAPIServerVersion.Some?
      ensures json == Encode(Snapshot(ReportView(), config), render)
    {
      var copy := FilledCopy();
      json := copy.TrimAndMarshal(render);
    }

    /** What follows the marshalling of a report. */
    method ClearSent(json: string)
      requires ReportValid()
      modifies this`aggregateFirstDataFlag, jsonReport.data.Values
      ensures ReportView() == Prepared(old(ReportView()), json)
    {
      jsonReport.DeleteJsonData();
      if aggregateFirstDataFlag && !IsEmptyFirstReport(json) {
        aggregateFirstDataFlag := false;
      }
    }

    /** Snapshot, then clear: the lists are cleared, through the pointers the copy shares, only after the copy has
        been turned into text. */
    method PrepareDataToSend(marshalOk: bool, render: Entry -> Json) returns (text: Option<string>)
      requires ReportValid()
      modifies this`aggregateFirstDataFlag, jsonReport.data.Values
      ensures text.Some? <==> CanPrepare(old(ReportView()), marshalOk)
      ensures text.Some? ==> text.value == Encode(Snapshot(old(ReportView()), config), render)
      ensures ReportView() == if text.Some? then Prepared(old(ReportView()), text.value) else old(ReportView())
    {
      if clusterAPIServerVersion.None? {
        return None;
      }
      var json := OutgoingText(render);
      if !marshalOk {
        return None;
      }
      ClearSent(json);
      return Some(json);
    }

    /** What follows the hand-over of a report. */
    method AfterHandOver()
      modifies this`pdm, this`ndm, this`sdm, this`cjm, this`secretdm, this`namespacedm, jsonReport`firstReport
      ensures Indexes() == old(Indexes()) && ReportView() == old(ReportView()).(firstReport := false)
    {
      if jsonReport.firstReport {
        var signalled := SetFirstReportFlag(false);
      }
    }

    /** One pass through the listener's loop, up to the wait, when no other goroutine runs in between. `handed`:
        the text handed to the socket, None if the loop starts over. */
    method ListenerTurn(marshalOk: bool, render: Entry -> Json) returns (handed: Option<string>)
      requires ReportValid()
      modifies this, jsonReport`firstReport, jsonReport.data.Values
      ensures Indexes() == old(Indexes())
      ensures var pass := ListenerPass(old(ReportView()), config, render, marshalOk);
        && ReportView() == pass.rs
        && handed == if pass.report.Some? then Some(Encode(pass.report.value, render)) else None
    {
      ghost var rs := ReportView();
      ghost var pass := ListenerPass(rs, config, render, marshalOk);
      handed := PrepareDataToSend(marshalOk, render);
      if handed.None? {
        assert pass == Pass(rs, None);
        return None;
      }
      ghost var prepared := Prepared(rs, handed.value);
      assert ReportView() == prepared;
      if IsEmptyFirstReport(handed.value) {
        assert pass == Pass(prepared, None);
        return None;
      }
      assert pass == Pass(prepared.(firstReport := false), Some(Snapshot(rs, config)));
      AfterHandOver();
    }

    // ----- scans of the pod index -----

    method IsPodSpecAlreadyExist(podOwner: OwnerDet, namespace: string, order: seq<int>)
        returns (id: int, runningPodNum: nat)
      requires Shape(pdm) && IsOrder(order, pdm) && Ids.Sound(ids.Contents())
      modifies ids
      ensures Ids.Sound(ids.Contents())
      ensures match FindSpec(pdm, order, Key(namespace, ExtractPodSpecFromOwner(podOwner.data)))
        case Some(k) => id == k && runningPodNum == |pdm[k]| && ids.counter == old(ids.counter)
        case None => id == old(ids.counter) && runningPodNum == 0 && ids.counter == id + 1
      ensures if exists k :: R.Fits(pdm, k, namespace, podOwner)
        then R.Fits(pdm, id, namespace, podOwner) && runningPodNum == |pdm[id]|
        else id == old(ids.counter) && runningPodNum == 0
    {
      R.FoundFits(pdm, order, namespace, podOwner);
      var newSpec := ExtractPodSpecFromOwner(podOwner.data);
      ghost var key := Key(namespace, newSpec);
      for n := 0 to |order|
        invariant FindSpec(pdm, order, key) == FindSpec(pdm, order[n..], key)
      {
        var v := pdm[order[n]];
        assert BucketShape(order[n], v);
        if |v| <= 1 {
          continue;
        }
        var p := v[0].service;
        var existsSpec := ExtractPodSpecFromOwner(p.owner.data);
        if p.pod.namespace == namespace && newSpec == existsSpec {
          return v[0].service.podSpecId, |v|;
        }
      }
      id := ids.CreateID();
      runningPodNum := 0;
    }

    /** Whether one of the records from the second element on carries the name, and which. */
    method FindInBucket(v: Bucket, name: string) returns (element: nat)
      requires v != [] ==> v[0].Header? && forall i :: 1 <= i < |v| ==> v[i].Record?
      ensures element == FirstRecord(v, name, name)
    {
      if v == [] {
        return 0;
      }
      element := 1;
      while element < |v|
        invariant 1 <= element <= |v|
        invariant forall i :: 1 <= i < element ==> v[i].record.podName != name
      {
        if v[element].record.podName == name {
          break;
        }
        element := element + 1;
      }
    }

    method GetAncestorFromLocalPodsList(pod: Pod, order: seq<int>) returns (owner: Option<OwnerDet>)
      requires Shape(pdm) && IsOrder(order, pdm)
      ensures owner == FindOwner(pdm, order, pod.name)
    {
      for n := 0 to |order|
        invariant FindOwner(pdm, order, pod.name) == FindOwner(pdm, order[n..], pod.name)
      {
        var v := pdm[order[n]];
        assert BucketShape(order[n], v);
        var element := FindInBucket(v, pod.name);
        if element < |v| {
          return Some(v[0].service.owner);
        }
      }
      return None;
    }

    /** The entry reported for a modified pod. The scan goes on after a match, so the last visited one counts. */
    method UpdatePod(pod: Pod, order: seq<int>, podStatus: string) returns (updated: Option<PodRecord>)
      requires Shape(pdm) && IsOrder(order, pdm) && podStatus == StatusOf(pod)
      ensures updated == match FindRecord(pdm, order, pod.name)
        case None => None
        case Some(record) => Some(UpdatedRecord(pod, record))
      ensures updated.Some? <==> exists id <- pdm :: R.Lists(pdm[id], pod.name)
      ensures updated.Some? ==>
        && R.Describes(PodDelta(UPDATED, updated.value), UPDATED, pod, podStatus, updated.value.ownerName,
                       updated.value.ownerKind)
        && R.OwnedBy(pdm, pod.name, updated.value.ownerName, updated.value.ownerKind)
    {
      R.FoundIsListed(pdm, order, pod.name);
      R.FoundRecordIsTracked(pdm, order, pod.name);
      updated := None;
      for n := 0 to |order|
        invariant updated == match FindRecord(pdm, order[..n], pod.name)
          case None => None
          case Some(record) => Some(UpdatedRecord(pod, record))
      {
        var v := pdm[order[n]];
        assert BucketShape(order[n], v);
        assert order[..n + 1][..n] == order[..n];
        var element := FindInBucket(v, pod.name);
        if element < |v| {
          var tracked := v[element].record;
          updated := Some(PodRecord(pod.name, pod.nodeName, pod.podIP, pod.namespace, tracked.ownerName,
                                    tracked.ownerKind, podStatus, pod.created, None));
        }
      }
      assert order[..|order|] == order;
    }

    // ----- removal -----

    /** Removes a bucket that is down to its header, if the owner is gone. */
    method DropIfGone(id: int, v: Bucket, gone: Gone) returns (rest: Bucket, ownerGone: bool)
      requires v != [] && v[0].Header?
      modifies this`pdm
      ensures ownerGone <==> |v| <= 1 && IsGone(v[0].service, gone)
      ensures rest == if ownerGone then [] else v
      ensures pdm == if ownerGone then old(pdm) - {id} else old(pdm)
    {
      rest, ownerGone := v, false;
      if |v| <= 1 {
        ownerGone := IsGone(v[0].service, gone);
        if ownerGone {
          rest := v[1..];
          pdm := pdm - {id};
        }
      }
    }

    /** What the loop does with an element that has one of the names of the pod. It is detached once: to remove a
        detached element again does nothing. */
    method RemoveElement(id: int, element: nat, pod: Pod, gone: Gone, podSpecID: int, removed: bool)
        returns (podSpecID': int, removed': bool, owner': OwnerDet, panicked: bool)
      requires id in pdm && BucketShape(id, pdm[id]) && 1 <= element < |pdm[id]|
      requires FirstRecord(pdm[id], pod.name, pod.generateName) == element
      modifies this`pdm
      ensures Removal(pdm, podSpecID', removed', owner', panicked) ==
        Visit(Removal(old(pdm), podSpecID, removed, NO_OWNER, false), id, pod.name, pod.generateName, gone)
    {
      podSpecID', removed', panicked := podSpecID, removed, false;
      var v := pdm[id];
      var podName := v[element].record.podName;
      owner' := v[0].service.owner;
      v := v[..element] + v[element + 1..];
      assert v == Without(pdm[id], element) && v[0] == pdm[id][0];
      pdm := pdm[id := v];
      var ownerGone;
      if podName == pod.name {
        podSpecID' := id;
        var short := |v| <= 1;
        v, ownerGone := DropIfGone(id, v, gone);
        if short {
          removed' := ownerGone;
        }
      }
      if podName == pod.generateName {
        if v == [] {
          panicked := true;
          return;
        }
        owner' := v[0].service.owner;
        v, ownerGone := DropIfGone(id, v, gone);
        if v == [] {
          panicked := true;
          return;
        }
        podSpecID' := v[0].service.podSpecId;
      }
    }

    /** Removes what the scan of one bucket removes. A removed element has no next one, so the loop ends there. */
    method RemoveFromBucket(id: int, pod: Pod, gone: Gone, podSpecID: int, removed: bool, owner: OwnerDet)
        returns (podSpecID': int, removed': bool, owner': OwnerDet, panicked: bool)
      requires id in pdm && BucketShape(id, pdm[id])
      modifies this`pdm
      ensures Removal(pdm, podSpecID', removed', owner', panicked) ==
        Visit(Removal(old(pdm), podSpecID, removed, owner, false), id, pod.name, pod.generateName, gone)
    {
      podSpecID', removed', owner', panicked := podSpecID, removed, owner, false;
      var v := pdm[id];
      for element := 0 to |v|
        invariant pdm == old(pdm) && FirstRecord(v, pod.name, pod.generateName) >= element
      {
        if v[element].Header? {
          continue;
        }
        var podName := v[element].record.podName;
        if podName == pod.name || podName == pod.generateName {
          podSpecID', removed', owner', panicked := RemoveElement(id, element, pod, gone, podSpecID, removed);
          return;
        }
      }
    }

    method RemovePod(pod: Pod, order: seq<int>, gone: Gone)
        returns (podSpecID: int, removed: bool, owner: OwnerDet, panicked: bool)
      requires Shape(pdm) && IsOrder(order, pdm)
      modifies this`pdm
      ensures Removal(pdm, podSpecID, removed, owner, panicked) ==
        RemoveScan(old(pdm), order, pod.name, pod.generateName, gone)
    {
      podSpecID, removed, owner, panicked := -1, false, NO_OWNER, false;
      for n := 0 to |order|
        invariant Removal(pdm, podSpecID, removed, owner, panicked) ==
          RemoveScan(old(pdm), order[..n], pod.name, pod.generateName, gone)
      {
        RemoveScanNext(old(pdm), order, n, pod.name, pod.generateName, gone);
        if !panicked {
          podSpecID, removed, owner, panicked := RemoveFromBucket(order[n], pod, gone, podSpecID, removed, owner);
        }
      }
      assert order[..|order|] == order;
    }

    // ----- pod events -----

    /** A new bucket with nothing but its header; its microservice is reported. */
    method OpenBucket(id: int, pod: Pod, od: OwnerDet)
      requires jsonReport.Valid()
      modifies this`pdm, jsonReport, jsonReport.data.Values
      ensures jsonReport.Valid() && forall k <- jsonReport.data ::
        jsonReport.data[k] in old(jsonReport.data.Values) || fresh(jsonReport.data[k])
      ensures pdm == old(pdm)[id := [Header(MicroServiceData(pod, od, id))]]
      ensures jsonReport.Wire() == Grown(old(jsonReport.Wire()), MicroDelta(CREATED, MicroServiceData(pod, od, id)))
    {
      pdm := pdm[id := []];
      var nms := MicroServiceData(pod, od, id);
      pdm := pdm[id := pdm[id] + [Header(nms)]];
      assert [] + [Header(nms)] == [Header(nms)];
      jsonReport.AddToJsonFormat(MicroEntry(nms), MICROSERVICES, CREATED);
    }

    /** Whether no pod of the bucket has this name. */
    method IsNewTo(id: int, name: string) returns (first: bool)
      requires Shape(pdm) && id in pdm
      ensures first <==> !Holds(pdm[id], name)
    {
      assert BucketShape(id, pdm[id]);
      var element := FindInBucket(pdm[id], name);
      first := element == |pdm[id]|;
    }

    /** The bucket for an added pod. `first`: the pod is new to it. */
    method FindBucket(pod: Pod, od: OwnerDet, order: seq<int>, ghost t: Tracking) returns (id: int, first: bool)
      requires Shape(pdm) && IsOrder(order, pdm) && Ids.Sound(ids.Contents()) && jsonReport.Valid()
      requires t == View(t.index.watermark)
      modifies this`pdm, ids, jsonReport, jsonReport.data.Values
      ensures Ids.Sound(ids.Contents())
      ensures jsonReport.Valid() && forall k <- jsonReport.data ::
        jsonReport.data[k] in old(jsonReport.data.Values) || fresh(jsonReport.data[k])
      ensures var b := BucketFor(t.index, pod, od, order);
        && id == b.id && first == b.first
        && View(t.index.watermark) ==
           Tracking(State(b.pdm, b.nextId, t.index.watermark), GrownAll(t.report, b.reported))
    {
      var runningPodNum;
      id, runningPodNum := IsPodSpecAlreadyExist(od, pod.namespace, order);
      assert jsonReport.Wire() == t.report;
      first := true;
      if runningPodNum <= 1 {
        ghost var d := MicroDelta(CREATED, MicroServiceData(pod, od, id));
        GrownOneMore(t.report, [], d);
        OpenBucket(id, pod, od);
        assert jsonReport.Wire() == GrownAll(t.report, [d]);
        assert BucketFor(t.index, pod, od, order) == Bucketed(id, true, pdm, ids.counter, [d]);
      } else {
        first := IsNewTo(id, TrackedName(pod));
        assert BucketFor(t.index, pod, od, order) == Bucketed(id, first, pdm, ids.counter, []);
      }
    }

    /** A new record at the end of a bucket, and its entry in the report. */
    method PushPod(id: int, pod: Pod, od: OwnerDet, podStatus: string)
      requires id in pdm && jsonReport.Valid() && podStatus == StatusOf(pod)
      modifies this`pdm, jsonReport, jsonReport.data.Values
      ensures jsonReport.Valid()
      ensures pdm == old(pdm)[id := old(pdm)[id] + [Record(CreatedRecord(pod, od))]]
      ensures jsonReport.Wire() == Grown(old(jsonReport.Wire()), PodDelta(CREATED, CreatedRecord(pod, od)))
    {
      var newPod := PodRecord(TrackedName(pod), pod.nodeName, pod.podIP, pod.namespace, od.name, od.kind,
                              podStatus, pod.created, None);
      pdm := pdm[id := pdm[id] + [Record(newPod)]];
      jsonReport.AddToJsonFormat(PodEntry(newPod), PODS, CREATED);
    }

    method HandleAddedPod(pod: Pod, od: OwnerDet, podStatus: string, order: seq<int>, watermark: Time, now: Time)
        returns (watermark': Time, inform: bool)
      requires Shape(pdm) && IsOrder(order, pdm) && Ids.Sound(ids.Contents()) && jsonReport.Valid()
      requires podStatus == StatusOf(pod)
      modifies this`pdm, ids, jsonReport, jsonReport.data.Values
      ensures Ids.Sound(ids.Contents()) && jsonReport.Valid()
      ensures var out := HandleAdded(old(View(watermark)).index, pod, od, order, now);
        View(watermark') == Took(old(View(watermark)), out) && (inform <==> out.deltas != [])
    {
      watermark', inform := watermark, false;
      if pod.created < watermark {
        return;
      }
      ghost var t := View(watermark);
      AddedInSteps(t.index, pod, od, order, now);
      var id, first := FindBucket(pod, od, order, t);
      if !first {
        watermark' := now;
        return;
      }
      GrownOneMore(t.report, BucketFor(t.index, pod, od, order).reported, PodDelta(CREATED, CreatedRecord(pod, od)));
      PushPod(id, pod, od, podStatus);
      inform := true;
    }

    method HandleModifiedPod(pod: Pod, podStatus: string, order: seq<int>, watermark: Time, now: Time)
        returns (watermark': Time, inform: bool)
      requires Shape(pdm) && IsOrder(order, pdm) && jsonReport.Valid() && podStatus == StatusOf(pod)
      modifies jsonReport, jsonReport.data.Values
      ensures jsonReport.Valid()
      ensures var out := HandleModified(old(View(watermark)).index, pod, order, now);
        View(watermark') == Took(old(View(watermark)), out) && (inform <==> out.deltas != [])
    {
      watermark', inform := watermark, false;
      if pod.deletion.Some? {
        watermark' := now;
        return;
      }
      var updated := UpdatePod(pod, order, podStatus);
      if updated.Some? {
        GrownOneMore(jsonReport.Wire(), [], PodDelta(UPDATED, updated.value));
        jsonReport.AddToJsonFormat(PodEntry(updated.value), PODS, UPDATED);
        inform := true;
      }
    }

    /** The entries about a removed pod, and about its microservice if that is gone too. */
    method ReportRemoval(pod: Pod, owner: OwnerDet, podSpecID: int, removeMicroServiceAsWell: bool)
      requires jsonReport.Valid()
      modifies jsonReport, jsonReport.data.Values
      ensures jsonReport.Valid()
      ensures jsonReport.Wire() ==
        GrownAll(old(jsonReport.Wire()), RemovalReport(pod, owner, podSpecID, removeMicroServiceAsWell))
    {
      ghost var r := jsonReport.Wire();
      var np := PodRecord(pod.name, pod.nodeName, pod.podIP, pod.namespace, owner.name, owner.kind,
                          "Terminating", pod.created, pod.deletion);
      GrownOneMore(r, [], PodDelta(DELETED, np));
      jsonReport.AddToJsonFormat(PodEntry(np), PODS, DELETED);
      assert [PodDelta(DELETED, np)] + [] == [PodDelta(DELETED, np)];
      if removeMicroServiceAsWell {
        var nms := MicroServiceData(pod, owner, podSpecID);
        GrownOneMore(r, [PodDelta(DELETED, np)], MicroDelta(DELETED, nms));
        jsonReport.AddToJsonFormat(MicroEntry(nms), MICROSERVICES, DELETED);
      }
    }

    method DeletePod(pod: Pod, order: seq<int>, gone: Gone, ghost watermark: Time)
        returns (inform: bool, panicked: bool)
      requires Shape(pdm) && IsOrder(order, pdm) && jsonReport.Valid()
      modifies this`pdm, jsonReport, jsonReport.data.Values
      ensures jsonReport.Valid()
      ensures var out := HandleDeleted(old(View(watermark)).index, pod, gone, order);
        && View(watermark) == Took(old(View(watermark)), out)
        && panicked == out.panicked && (inform <==> out.deltas != [])
    {
      inform := false;
      ghost var t := View(watermark);
      var podSpecID, removeMicroServiceAsWell, owner;
      podSpecID, removeMicroServiceAsWell, owner, panicked := RemovePod(pod, order, gone);
      ghost var removed := Tracking(t.index.(pdm := pdm), t.report);
      assert View(watermark) == removed;
      if panicked || podSpecID == -1 {
        return;
      }
      ReportRemoval(pod, owner, podSpecID, removeMicroServiceAsWell);
      inform := true;
      assert View(watermark) ==
        Tracking(removed.index, GrownAll(t.report, RemovalReport(pod, owner, podSpecID, removeMicroServiceAsWell)));
    }

    /** The scan candidates. `notify`: the scan of new images is to be triggered. */
    method CandidateTurn(typ: WatchType, pod: Pod, od: OwnerDet, podStatus: string, reported: bool)
        returns (notify: bool)
      requires candidates.Valid() && podStatus == StatusOf(pod)
      modifies candidates, candidates.items
      ensures candidates.Valid()
      ensures candidates.View() ==
        CandidatesAfter(old(candidates.View()), typ, pod, od, reported, collectorCreationTime)
      ensures notify <==> NotifiesOf(old(candidates.View()), typ, pod, od)
    {
      notify := false;
      match typ {
        case Added =>
          if reported && pod.created > collectorCreationTime {
            candidates.AddPod(od, pod);
          }
        case Modified =>
          notify := candidates.CheckNotification(pod, od, podStatus);
        case Deleted =>
          candidates.RemovePod(od, pod);
        case Bookmark =>
      }
    }

    /** An added pod: the candidates are looked at after the index, and only if the pod was reported. */
    method AddedTurn(pod: Pod, od: OwnerDet, podStatus: string, order: seq<int>, watermark: Time, now: Time)
        returns (watermark': Time, inform: bool)
      requires Shape(pdm) && IsOrder(order, pdm) && PartsValid() && podStatus == StatusOf(pod)
      modifies this`pdm, ids, jsonReport, jsonReport.data.Values, candidates, candidates.items
      ensures PartsValid()
      ensures var out := HandleAdded(old(View(watermark)).index, pod, od, order, now);
        View(watermark') == Took(old(View(watermark)), out) && (inform <==> out.deltas != [])
      ensures candidates.View() ==
        CandidatesAfter(old(candidates.View()), Added, pod, od, inform, collectorCreationTime)
    {
      label Before:
      watermark', inform := HandleAddedPod(pod, od, podStatus, order, watermark, now);
      assert unchanged@Before(candidates) && unchanged@Before(candidates.items);
      ghost var t := View(watermark');
      var notify := CandidateTurn(Added, pod, od, podStatus, inform);
      assert View(watermark') == t;
    }

    /** A modified pod: the candidates come first. */
    method ModifiedTurn(pod: Pod, od: OwnerDet, podStatus: string, order: seq<int>, watermark: Time, now: Time)
        returns (watermark': Time, inform: bool, notify: bool)
      requires Shape(pdm) && IsOrder(order, pdm) && PartsValid() && podStatus == StatusOf(pod)
      modifies jsonReport, jsonReport.data.Values, candidates, candidates.items
      ensures PartsValid()
      ensures var out := HandleModified(old(View(watermark)).index, pod, order, now);
        View(watermark') == Took(old(View(watermark)), out) && (inform <==> out.deltas != [])
      ensures candidates.View() ==
        CandidatesAfter(old(candidates.View()), Modified, pod, od, inform, collectorCreationTime)
      ensures notify <==> NotifiesOf(old(candidates.View()), Modified, pod, od)
    {
      ghost var t := View(watermark);
      notify := CandidateTurn(Modified, pod, od, podStatus, false);
      assert View(watermark) == t;
      label Before:
      watermark', inform := HandleModifiedPod(pod, podStatus, order, watermark, now);
      assert unchanged@Before(candidates) && unchanged@Before(candidates.items);
    }

    /** A deleted pod: the candidates come first. */
    method DeletedTurn(pod: Pod, od: OwnerDet, podStatus: string, gone: Gone, order: seq<int>, ghost watermark: Time)
        returns (inform: bool, panicked: bool)
      requires Shape(pdm) && IsOrder(order, pdm) && PartsValid() && podStatus == StatusOf(pod)
      modifies this`pdm, jsonReport, jsonReport.data.Values, candidates, candidates.items
      ensures PartsValid()
      ensures var out := HandleDeleted(old(View(watermark)).index, pod, gone, order);
        && View(watermark) == Took(old(View(watermark)), out)
        && panicked == out.panicked && (inform <==> out.deltas != [])
      ensures candidates.View() ==
        CandidatesAfter(old(candidates.View()), Deleted, pod, od, inform, collectorCreationTime)
    {
      ghost var t := View(watermark);
      var notify := CandidateTurn(Deleted, pod, od, podStatus, false);
      assert View(watermark) == t;
      label Before:
      inform, panicked := DeletePod(pod, order, gone, watermark);
      assert unchanged@Before(candidates) && unchanged@Before(candidates.items);
    }

    /** An event of a pod in a watched namespace whose owner is known. */
    method OwnedPodTurn(typ: WatchType, pod: Pod, od: OwnerDet, gone: Gone, order: seq<int>, watermark: Time, now: Time)
        returns (watermark': Time, inform: bool, notify: bool, panicked: bool)
      requires Shape(pdm) && IsOrder(order, pdm) && PartsValid()
      modifies this`pdm, ids, jsonReport, jsonReport.data.Values, candidates, candidates.items
      ensures PartsValid()
      ensures PodTurnResult(PodView(watermark'), inform, notify, false, panicked) ==
        OwnedTurn(old(PodView(watermark)), typ, pod, od, gone, order, now, collectorCreationTime)
    {
      watermark', inform, notify, panicked := watermark, false, false, false;
      var podStatus := GetPodStatus(pod);
      ghost var w := PodView(watermark);
      ghost var turn := OwnedTurn(w, typ, pod, od, gone, order, now, collectorCreationTime);
      match typ {
        case Added =>
          watermark', inform := AddedTurn(pod, od, podStatus, order, watermark, now);
        case Modified =>
          watermark', inform, notify := ModifiedTurn(pod, od, podStatus, order, watermark, now);
        case Deleted =>
          inform, panicked := DeletedTurn(pod, od, podStatus, gone, order, watermark);
        case Bookmark =>
          assert turn == PodTurnResult(w, false, false, false, false);
      }
      assert View(watermark') == turn.world.tracking;
      assert candidates.View() == turn.world.candidates;
    }

    /** One turn of the pod watch loop. A failed owner lookup ends the session like a closed channel does. */
    method HandlePodEvent(e: Event, watermark: Time)
        returns (watermark': Time, inform: bool, notify: bool, over: bool, panicked: bool)
      requires Shape(pdm) && OrderOk(View(watermark).index, e) && !e.CronJobAdded? && !e.IdTaken?
      requires PartsValid()
      modifies this`pdm, ids, jsonReport, jsonReport.data.Values, candidates, candidates.items
      ensures PartsValid() && (Sound(old(View(watermark))) ==> Sound(View(watermark')))
      ensures PodTurnResult(PodView(watermark'), inform, notify, over, panicked) ==
        PodTurn(includeNamespaces, old(PodView(watermark)), e, collectorCreationTime)
    {
      ghost var w := PodView(watermark);
      ghost var turn := PodTurn(includeNamespaces, w, e, collectorCreationTime);
      watermark', inform, notify, over, panicked := watermark, false, false, false, false;
      if e.SessionEnds? {
        watermark', over := e.now, true;
      } else if e.PodSeen? {
        var watched := IsNamespaceWatched(includeNamespaces, e.pod.namespace);
        if watched {
          if e.owner.None? {
            watermark', over := e.now, true;
          } else {
            watermark', inform, notify, panicked :=
              OwnedPodTurn(e.typ, e.pod, e.owner.value, e.gone, e.order, watermark, e.now);
          }
        }
      }
      assert View(watermark') == turn.world.tracking;
      if Sound(w.tracking) {
        PodTurnSound(includeNamespaces, w, e, collectorCreationTime);
      }
    }

    // ----- cron jobs -----

    /** A new empty bucket, and the id it is kept under. */
    method NewCronJobBucket() returns (id: int)
      requires Ids.Sound(ids.Contents())
      modifies this`pdm, ids
      ensures Ids.Sound(ids.Contents()) && id == old(ids.counter)
      ensures pdm == old(pdm)[id := []] && ids.counter == id + 1
    {
      id := ids.CreateID();
      pdm := pdm[id := []];
    }

    /** A cron job of a watched namespace that is added and not too old, modified or deleted. */
    method ReportCronJob(typ: WatchType, job: C.CronJob, cronJobIDs: map<string, int>, ghost watermark: Time)
        returns (cronJobIDs': map<string, int>)
      requires Shape(pdm) && Ids.Sound(ids.Contents()) && jsonReport.Valid() && typ != Bookmark
      requires Watched(includeNamespaces, job.template.namespace)
      requires typ == Added ==> job.template.created >= watermark
      modifies this`pdm, ids, jsonReport, jsonReport.data.Values
      ensures Ids.Sound(ids.Contents()) && jsonReport.Valid()
      ensures CronTurnResult(View(0), cronJobIDs', watermark, true) ==
        CronTurn(includeNamespaces, old(View(0)), cronJobIDs, watermark, C.CronJobSeen(typ, job))
    {
      cronJobIDs' := cronJobIDs;
      ghost var t := View(0);
      ghost var turn := CronTurn(includeNamespaces, t, cronJobIDs, watermark, C.CronJobSeen(typ, job));
      var change, id;
      match typ {
        case Added =>
          id := NewCronJobBucket();
          change, cronJobIDs' := CREATED, cronJobIDs'[job.template.uid := id];
        case Modified =>
          change, id := UPDATED, C.Read(cronJobIDs', job.template.uid);
        case Deleted =>
          cronJobIDs' := cronJobIDs' - {job.template.uid};
          change, id := DELETED, C.Read(cronJobIDs', job.template.uid);
      }
      ghost var d := MicroDelta(change, C.ServiceOf(job, id));
      assert turn == CronTurnResult(Tracking(View(0).index, GrownAll(t.report, [d])), cronJobIDs', watermark, true);
      assert jsonReport.Wire() == t.report;
      GrownOneMore(t.report, [], d);
      jsonReport.AddToJsonFormat(MicroEntry(C.ServiceOf(job, id)), MICROSERVICES, change);
    }

    /** One turn of the cron job watch loop. */
    method HandleCronJobEvent(e: C.CronEvent, cronJobIDs: map<string, int>, watermark: Time)
        returns (cronJobIDs': map<string, int>, watermark': Time, inform: bool, over: bool)
      requires Shape(pdm) && Ids.Sound(ids.Contents()) && jsonReport.Valid()
      modifies this`pdm, ids, jsonReport, jsonReport.data.Values
      ensures Ids.Sound(ids.Contents()) && jsonReport.Valid()
      ensures Sound(old(View(0))) ==> Sound(View(0))
      ensures CronTurnResult(View(0), cronJobIDs', watermark', inform) ==
        CronTurn(includeNamespaces, old(View(0)), cronJobIDs, watermark, e)
      ensures over <==> e.CronSessionEnds?
    {
      ghost var t := View(0);
      cronJobIDs', watermark', inform, over := cronJobIDs, watermark, false, false;
      match e {
        case CronSessionEnds(now) =>
          cronJobIDs', watermark', over := map[], now, true;
        case CronJobSeen(typ, job) =>
          var watched := IsNamespaceWatched(includeNamespaces, job.template.namespace);
          if watched && typ != Bookmark && (typ != Added || job.template.created >= watermark) {
            cronJobIDs' := ReportCronJob(typ, job, cronJobIDs, watermark);
            inform := true;
          }
      }
      if Sound(t) {
        CronTurnSound(includeNamespaces, t, cronJobIDs, watermark, e);
      }
    }
  }
}

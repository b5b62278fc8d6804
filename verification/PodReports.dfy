/** What the pod watcher reports about one event, in terms of the pod, its owner and the buckets alone, and how
    often it reports updates over whole streams. */
module PodReports {
  import opened Types
  import opened Entries
  import opened PodStatus
  import opened PodIndex
  import opened PodWatch
  import opened PodHistory
  import opened PodRemoval
  import PodBalance

  // ----- which pods belong to the same microservice -----

  /** Two owner objects are the same for the collector: both have a spec, and the specs are equal; or both have
      none, and the objects are equal; or neither could be fetched. */
  predicate Agree(a: OwnerData, b: OwnerData) {
    || (a.NoData? && b.NoData?)
    || (a.Data? && b.Data? && a.spec.Some? && b.spec.Some? && a.spec.value == b.spec.value)
    || (a.Data? && b.Data? && a.spec.None? && b.spec.None? && a.identity == b.identity)
  }

  /** A bucket with pods whose header has this namespace and an owner that agrees with this one. */
  predicate Fits(pdm: Index, id: int, namespace: string, owner: OwnerDet) {
    && id in pdm && |pdm[id]| >= 2 && pdm[id][0].Header?
    && pdm[id][0].service.pod.namespace == namespace
    && Agree(pdm[id][0].service.owner.data, owner.data)
  }

  /** The name is that of one of the bucket's pods. */
  predicate Lists(b: Bucket, name: string) {
    exists i :: 1 <= i < |b| && b[i].Record? && b[i].record.podName == name
  }

  /** The entry describes the pod, seen with this status and owner. */
  predicate Describes(d: Delta, change: Change, pod: Pod, status: string, ownerName: string, ownerKind: string) {
    && d.slot == Slot(PODS, change) && d.entry.PodEntry?
    && var r := d.entry.record;
    && r.nodeName == pod.nodeName && r.podIP == pod.podIP && r.namespace == pod.namespace
    && r.created == pod.created && r.podStatus == status && r.ownerName == ownerName && r.ownerKind == ownerKind
    && r.deletion == (if change == DELETED then pod.deletion else None)
    && r.podName == (if change == CREATED && pod.name == "" then pod.generateName else pod.name)
  }

  /** The entry reports the microservice of this pod and owner under the id. */
  predicate Introduces(d: Delta, change: Change, pod: Pod, owner: OwnerDet, id: int) {
    && d.slot == Slot(MICROSERVICES, change) && d.entry.MicroEntry?
    && d.entry.service.pod == pod && d.entry.service.owner == owner && d.entry.service.podSpecId == id
  }

  lemma FitsIsMatch(pdm: Index, id: int, namespace: string, owner: OwnerDet)
    ensures Fits(pdm, id, namespace, owner) <==>
      id in pdm && Matches(pdm[id], Key(namespace, ExtractPodSpecFromOwner(owner.data)))
  {
  }

  lemma ListsIsHolds(id: int, b: Bucket, name: string)
    requires BucketShape(id, b)
    ensures Lists(b, name) <==> Holds(b, name)
  {
  }

  /** In every reachable state, different buckets with pods are of different namespaces, or their owners disagree. */
  lemma BucketsDisagree(st: State, i: int, j: int)
    requires Inv(st) && i in st.pdm && j in st.pdm && i != j && |st.pdm[i]| >= 2 && |st.pdm[j]| >= 2
    ensures st.pdm[i][0].Header? && st.pdm[j][0].Header?
    ensures var a, b := st.pdm[i][0].service, st.pdm[j][0].service;
      a.pod.namespace != b.pod.namespace || !Agree(a.owner.data, b.owner.data)
  {
    assert BucketShape(i, st.pdm[i]) && BucketShape(j, st.pdm[j]);
    var b := st.pdm[j][0].service;
    FitsIsMatch(st.pdm, i, b.pod.namespace, b.owner);
    FitsIsMatch(st.pdm, j, b.pod.namespace, b.owner);
  }

  /** A scan finds a bucket that fits, if there is one. */
  lemma FoundFits(pdm: Index, order: seq<int>, namespace: string, owner: OwnerDet)
    requires IsOrder(order, pdm)
    ensures var found := FindSpec(pdm, order, Key(namespace, ExtractPodSpecFromOwner(owner.data)));
      if exists id :: Fits(pdm, id, namespace, owner) then found.Some? && Fits(pdm, found.value, namespace, owner)
      else found.None?
  {
    forall id ensures Fits(pdm, id, namespace, owner) <==>
      id in pdm && Matches(pdm[id], Key(namespace, ExtractPodSpecFromOwner(owner.data)))
    {
      FitsIsMatch(pdm, id, namespace, owner);
    }
  }

  // ----- added -----

  /** An added pod, past the watermark, joins the bucket that fits, whatever the visiting order: it is appended there
      and reported, or, if the bucket has its name already, nothing is reported and the watermark moves. */
  lemma AddedJoins(namespaces: seq<string>, st: State, e: Event, id: int)
    requires Inv(st) && OrderOk(st, e) && Relevant(namespaces, e, Added) && e.pod.created >= st.watermark
    requires Fits(st.pdm, id, e.pod.namespace, e.owner.value)
    ensures var out, b := Handle(namespaces, st, e), st.pdm[id];
      if Lists(b, if e.pod.name == "" then e.pod.generateName else e.pod.name)
      then out.st == st.(watermark := e.now) && out.deltas == []
      else
        && |out.deltas| == 1
        && Describes(out.deltas[0], CREATED, e.pod, StatusOf(e.pod), e.owner.value.name, e.owner.value.kind)
        && out.st == st.(pdm := st.pdm[id := b + [Record(out.deltas[0].entry.record)]])
  {
    FitsIsMatch(st.pdm, id, e.pod.namespace, e.owner.value);
    FindSpecIsLookup(st.pdm, e.order, OwnerKey(e.pod, e.owner.value), id);
    ListsIsHolds(id, st.pdm[id], TrackedName(e.pod));
  }

  /** Exactly when no bucket fits, a bucket opens under the next id with a header and the pod, and both the
      microservice and the pod are reported. */
  lemma AddedOpens(namespaces: seq<string>, st: State, e: Event)
    requires Inv(st) && OrderOk(st, e) && Relevant(namespaces, e, Added) && e.pod.created >= st.watermark
    requires forall id :: !Fits(st.pdm, id, e.pod.namespace, e.owner.value)
    ensures var out, owner := Handle(namespaces, st, e), e.owner.value;
      && |out.deltas| == 2
      && Introduces(out.deltas[0], CREATED, e.pod, owner, st.nextId)
      && Describes(out.deltas[1], CREATED, e.pod, StatusOf(e.pod), owner.name, owner.kind)
      && var b := [Header(out.deltas[0].entry.service), Record(out.deltas[1].entry.record)];
      out.st == st.(pdm := st.pdm[st.nextId := b], nextId := st.nextId + 1)
  {
    forall id <- st.pdm ensures !Matches(st.pdm[id], OwnerKey(e.pod, e.owner.value)) {
      FitsIsMatch(st.pdm, id, e.pod.namespace, e.owner.value);
    }
  }

  /** A pod created before the watermark changes nothing. */
  lemma AddedTooOld(namespaces: seq<string>, st: State, e: Event)
    requires Inv(st) && OrderOk(st, e) && Relevant(namespaces, e, Added) && e.pod.created < st.watermark
    ensures Handle(namespaces, st, e) == Outcome(st, [], false)
  {
  }

  // ----- modified -----

  /** Some bucket has a record of this name with this owner. */
  ghost predicate OwnedBy(pdm: Index, name: string, ownerName: string, ownerKind: string) {
    exists id <- pdm, r: PodRecord ::
      Record(r) in pdm[id] && r.podName == name && r.ownerName == ownerName && r.ownerKind == ownerKind
  }

  lemma {:induction false} FoundRecordIsTracked(pdm: Index, order: seq<int>, name: string)
    requires IsPartialOrder(order, pdm)
    ensures var found := FindRecord(pdm, order, name);
      found.Some? ==> OwnedBy(pdm, name, found.value.ownerName, found.value.ownerKind)
    decreases |order|
  {
    if order != [] {
      var n := |order| - 1;
      var b := pdm[order[n]];
      var j := FirstRecord(b, name, name);
      if j < |b| {
        assert b[j] == Record(b[j].record) && b[j] in b;
      } else {
        FoundRecordIsTracked(pdm, order[..n], name);
      }
    }
  }

  lemma FoundIsTracked(pdm: Index, order: seq<int>, name: string)
    requires IsOrder(order, pdm)
    ensures FindRecord(pdm, order, name).Some? <==> name in PodBalance.Tracked(pdm)
  {
    PodBalance.TrackedIsHeld(pdm, name);
    var holders := Holders(pdm, name);
    if holders != {} {
      var id := AnyOf(holders);
      assert id in order;
    }
    if FindRecord(pdm, order, name).Some? {
      var i :| 0 <= i < |order| && Holds(pdm[order[i]], name);
      assert order[i] in holders;
    }
  }

  lemma FoundIsListed(pdm: Index, order: seq<int>, name: string)
    requires Shape(pdm) && IsOrder(order, pdm)
    ensures FindRecord(pdm, order, name).Some? <==> exists id <- pdm :: Lists(pdm[id], name)
  {
    forall id <- pdm ensures Lists(pdm[id], name) <==> Holds(pdm[id], name) {
      ListsIsHolds(id, pdm[id], name);
    }
    if FindRecord(pdm, order, name).Some? {
      var i :| 0 <= i < |order| && Holds(pdm[order[i]], name);
      assert order[i] in pdm;
    }
  }

  /** A modified pod never changes the index. A terminating one only moves the watermark. Any other is reported, in
      exactly one entry, if and only if its name is tracked: the entry shows the pod as it is now, with the owner of
      a tracked record of that name. */
  lemma ModifiedReport(namespaces: seq<string>, st: State, e: Event)
    requires Inv(st) && OrderOk(st, e) && Relevant(namespaces, e, Modified)
    ensures var out := Handle(namespaces, st, e);
      if e.pod.deletion.Some? then out.st == st.(watermark := e.now) && out.deltas == []
      else
        && out.st == st
        && if e.pod.name !in PodBalance.Tracked(st.pdm) then out.deltas == []
           else
             && |out.deltas| == 1 && out.deltas[0].entry.PodEntry?
             && var r := out.deltas[0].entry.record;
             && Describes(out.deltas[0], UPDATED, e.pod, StatusOf(e.pod), r.ownerName, r.ownerKind)
             && OwnedBy(st.pdm, e.pod.name, r.ownerName, r.ownerKind)
  {
    FoundIsTracked(st.pdm, e.order, e.pod.name);
    FoundRecordIsTracked(st.pdm, e.order, e.pod.name);
  }

  // ----- deleted -----

  /** The entries report the removal of the pod from this bucket: the pod as terminating, with the owner in the
      bucket's header, and after it, if that is found removed, the bucket's microservice. */
  predicate ReportsRemoval(deltas: seq<Delta>, pod: Pod, id: int, b: Bucket) {
    && (Lists(b, pod.name) || Lists(b, pod.generateName)) && b[0].Header?
    && var owner := b[0].service.owner;
    && 1 <= |deltas| <= 2
    && Describes(deltas[0], DELETED, pod, "Terminating", owner.name, owner.kind)
    && (|deltas| == 2 ==> Introduces(deltas[1], DELETED, pod, owner, id))
  }

  lemma LosesIsLists(id: int, b: Bucket, pod: Pod)
    requires BucketShape(id, b)
    ensures Loses(b, pod.name, pod.generateName) <==> Lists(b, pod.name) || Lists(b, pod.generateName)
  {
  }

  lemma RemovalReported(pod: Pod, id: int, b: Bucket, removed: bool)
    requires BucketShape(id, b) && Loses(b, pod.name, pod.generateName)
    ensures ReportsRemoval(RemovalReport(pod, b[0].service.owner, id, removed), pod, id, b)
  {
    LosesIsLists(id, b, pod);
  }

  /** A deletion reports nothing exactly if no bucket has a pod of its name or generated name. Otherwise it reports
      the removal from one that has. */
  lemma DeletedReport(namespaces: seq<string>, st: State, e: Event)
    requires Inv(st) && OrderOk(st, e) && Relevant(namespaces, e, Deleted) && !Handle(namespaces, st, e).panicked
    ensures var deltas := Handle(namespaces, st, e).deltas;
      if forall id <- st.pdm :: !Lists(st.pdm[id], e.pod.name) && !Lists(st.pdm[id], e.pod.generateName)
      then deltas == []
      else exists id <- st.pdm :: ReportsRemoval(deltas, e.pod, id, st.pdm[id])
  {
    var name, generateName := e.pod.name, e.pod.generateName;
    RemovalIsOrderFree(st.pdm, e.order, name, generateName, e.gone);
    RemoveScanAnswer(st.pdm, e.order, name, generateName, e.gone);
    var r := RemoveScan(st.pdm, e.order, name, generateName, e.gone);
    forall id <- st.pdm
      ensures Loses(st.pdm[id], name, generateName) <==> Lists(st.pdm[id], name) || Lists(st.pdm[id], generateName)
    {
      LosesIsLists(id, st.pdm[id], e.pod);
    }
    if r.podSpecId != -1 {
      RemovalReported(e.pod, r.podSpecId, st.pdm[r.podSpecId], r.removed);
    }
  }

  // ----- all other events -----

  /** Pods of other namespaces, bookmarks and events without a pod change nothing. */
  lemma OtherEventsAreIgnored(namespaces: seq<string>, st: State, e: Event)
    requires Inv(st) && OrderOk(st, e)
    requires e.NotAPod? || (e.PodSeen? && "" !in namespaces && e.pod.namespace !in namespaces)
             || (e.PodSeen? && e.owner.Some? && e.typ == Bookmark)
    ensures Handle(namespaces, st, e) == Outcome(st, [], false)
  {
  }

  /** The end of a session, of its own or because the owner of a pod of a watched namespace cannot be found, moves the
      watermark to the present, and does nothing else. */
  lemma SessionsEnd(namespaces: seq<string>, st: State, e: Event)
    requires Inv(st) && OrderOk(st, e)
    requires e.SessionEnds?
             || (e.PodSeen? && e.owner.None? && ("" in namespaces || e.pod.namespace in namespaces))
    ensures Handle(namespaces, st, e) == Outcome(st.(watermark := e.now), [], false) && Ends(namespaces, e)
  {
  }

  // ----- updates over whole streams -----

  /** The event updates a pod that is tracked under this name. */
  predicate Updates(namespaces: seq<string>, st: State, e: Event, name: string) {
    && Relevant(namespaces, e, Modified) && e.pod.deletion.None?
    && e.pod.name == name && name in PodBalance.Tracked(st.pdm)
  }

  ghost function TimesUpdated(namespaces: seq<string>, st: State, events: seq<Event>, name: string): nat
    requires Inv(st) && Possible(namespaces, st, events)
    decreases |events|
  {
    if events == [] then 0
    else
      HandleInv(namespaces, st, events[0]);
      (if Updates(namespaces, st, events[0], name) then 1 else 0)
      + TimesUpdated(namespaces, Handle(namespaces, st, events[0]).st, events[1..], name)
  }

  lemma NoneUpdated(deltas: seq<Delta>, subject: Subject)
    requires |deltas| <= 2 && forall d <- deltas :: d.slot.change != UPDATED
    ensures Reported(deltas, UPDATED, subject) == 0
  {
    NothingReported(subject);
    if |deltas| == 1 {
      assert deltas == [deltas[0]];
      ReportedOne(deltas[0], UPDATED, subject);
    } else if |deltas| == 2 {
      assert deltas == [deltas[0]] + [deltas[1]];
      ReportedTwo(deltas[0], deltas[1], UPDATED, subject);
    }
  }

  lemma ModifiedStep(namespaces: seq<string>, st: State, e: Event, name: string, id: int)
    requires Inv(st) && OrderOk(st, e) && Relevant(namespaces, e, Modified)
    ensures var deltas := Handle(namespaces, st, e).deltas;
      && Reported(deltas, UPDATED, PodName(name)) == (if Updates(namespaces, st, e, name) then 1 else 0)
      && Reported(deltas, UPDATED, SpecId(id)) == 0
  {
    ModifiedReport(namespaces, st, e);
    var deltas := Handle(namespaces, st, e).deltas;
    if deltas == [] {
      NothingReported(PodName(name));
      NothingReported(SpecId(id));
    } else {
      assert deltas == [deltas[0]];
      ReportedOne(deltas[0], UPDATED, PodName(name));
      ReportedOne(deltas[0], UPDATED, SpecId(id));
    }
  }

  lemma OthersDoNotUpdate(namespaces: seq<string>, st: State, e: Event)
    requires Inv(st) && OrderOk(st, e) && !Relevant(namespaces, e, Modified)
    ensures var deltas := Handle(namespaces, st, e).deltas;
      |deltas| <= 2 && forall d <- deltas :: d.slot.change != UPDATED
  {
  }

  lemma UpdateStep(namespaces: seq<string>, st: State, e: Event, name: string, id: int)
    requires Inv(st) && OrderOk(st, e) && !Handle(namespaces, st, e).panicked
    ensures var deltas := Handle(namespaces, st, e).deltas;
      && Reported(deltas, UPDATED, PodName(name)) == (if Updates(namespaces, st, e, name) then 1 else 0)
      && Reported(deltas, UPDATED, SpecId(id)) == 0
  {
    if Relevant(namespaces, e, Modified) {
      ModifiedStep(namespaces, st, e, name, id);
    } else {
      OthersDoNotUpdate(namespaces, st, e);
      NoneUpdated(Handle(namespaces, st, e).deltas, PodName(name));
      NoneUpdated(Handle(namespaces, st, e).deltas, SpecId(id));
    }
  }

  /** Over any stream, a name has as many UPDATED entries as there are modified events of a tracked pod of that name
      that is not terminating; microservices have none. */
  lemma {:induction false} UpdatesAreReported(
      namespaces: seq<string>, st: State, events: seq<Event>, name: string, id: int)
    requires Inv(st) && Possible(namespaces, st, events)
    ensures var all := Emitted(namespaces, st, events);
      && Reported(all, UPDATED, PodName(name)) == TimesUpdated(namespaces, st, events, name)
      && Reported(all, UPDATED, SpecId(id)) == 0
    decreases |events|
  {
    if events == [] {
      NothingReported(PodName(name));
      NothingReported(SpecId(id));
    } else {
      HandleInv(namespaces, st, events[0]);
      UpdateStep(namespaces, st, events[0], name, id);
      var out := Handle(namespaces, st, events[0]);
      var rest := Emitted(namespaces, out.st, events[1..]);
      UpdatesAreReported(namespaces, out.st, events[1..], name, id);
      ReportedConcat(out.deltas, rest, UPDATED, PodName(name));
      ReportedConcat(out.deltas, rest, UPDATED, SpecId(id));
      assert Emitted(namespaces, st, events) == out.deltas + rest;
    }
  }
}

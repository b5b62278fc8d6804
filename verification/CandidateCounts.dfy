/** The scan candidates against the pod index: whether the count of an owner is the number of its tracked pods that
    are newer than the collector. */
module CandidateCounts {
  import opened Types
  import opened PodIndex
  import opened PodStatus
  import opened PodWatch
  import opened PodHistory
  import opened PodBalance
  import opened PodCollisions
  import opened Turns
  import opened Report
  import C = Candidates

  // ----- the newer pods of an owner -----

  predicate IsNewer(record: PodRecord, k: C.Key, collectorCreationTime: Time) {
    && record.namespace == k.namespace && record.ownerName == k.ownerName && record.ownerKind == k.ownerKind
    && record.created > collectorCreationTime
  }

  /** The bucket holds a newer pod of this owner under this name. */
  predicate HasNewer(b: Bucket, k: C.Key, collectorCreationTime: Time, name: string) {
    exists i :: 0 <= i < |b| && b[i].Record? && b[i].record.podName == name
                && IsNewer(b[i].record, k, collectorCreationTime)
  }

  /** The tracked newer pods of an owner, by bucket and name. */
  function Newer(pdm: Index, k: C.Key, collectorCreationTime: Time): set<(int, string)> {
    set id, i | id in pdm && 0 <= i < |pdm[id]| && pdm[id][i].Record?
                && IsNewer(pdm[id][i].record, k, collectorCreationTime) :: (id, pdm[id][i].record.podName)
  }

  lemma NewerIsHeld(pdm: Index, k: C.Key, collectorCreationTime: Time, id: int, name: string)
    ensures (id, name) in Newer(pdm, k, collectorCreationTime) <==>
      id in pdm && HasNewer(pdm[id], k, collectorCreationTime, name)
  {
    if id in pdm && HasNewer(pdm[id], k, collectorCreationTime, name) {
      var i :| 0 <= i < |pdm[id]| && pdm[id][i].Record? && pdm[id][i].record.podName == name
        && IsNewer(pdm[id][i].record, k, collectorCreationTime);
      assert (id, pdm[id][i].record.podName) in Newer(pdm, k, collectorCreationTime);
    }
  }

  /** Those that a deletion leaves. */
  function NewerKept(pdm: Index, k: C.Key, collectorCreationTime: Time, pod: Pod): set<(int, string)> {
    set x | x in Newer(pdm, k, collectorCreationTime) && x.0 in pdm
            && Taken(pdm[x.0], pod.name, pod.generateName) != Some(x.1)
  }

  // ----- what an event does to them -----

  lemma HasNewerAppended(b: Bucket, record: PodRecord, k: C.Key, collectorCreationTime: Time, name: string)
    ensures HasNewer(b + [Record(record)], k, collectorCreationTime, name) <==>
      HasNewer(b, k, collectorCreationTime, name)
      || (record.podName == name && IsNewer(record, k, collectorCreationTime))
  {
    var c := b + [Record(record)];
    assert forall i :: 0 <= i < |b| ==> c[i] == b[i];
    assert c[|b|] == Record(record);
  }

  /** A bucket loses the newer pod that is taken, and no other. */
  lemma HasNewerAfter(id: int, b: Bucket, pod: Pod, gone: Gone, k: C.Key, collectorCreationTime: Time, name: string)
    requires BucketShape(id, b)
    ensures var after := BucketAfter(b, pod.name, pod.generateName, gone);
      (after.Some? && HasNewer(after.value, k, collectorCreationTime, name)) <==>
        HasNewer(b, k, collectorCreationTime, name) && Taken(b, pod.name, pod.generateName) != Some(name)
  {
    var j := FirstRecord(b, pod.name, pod.generateName);
    if j < |b| {
      var rest := Without(b, j);
      assert forall i :: 0 <= i < |rest| ==> rest[i] == if i < j then b[i] else b[i + 1];
      if HasNewer(b, k, collectorCreationTime, name) && b[j].record.podName != name {
        var i :| 0 <= i < |b| && b[i].Record? && b[i].record.podName == name
          && IsNewer(b[i].record, k, collectorCreationTime);
        assert rest[if i < j then i else i - 1] == b[i];
      }
    }
  }

  lemma NewerAdded(namespaces: seq<string>, st: State, e: Event, k: C.Key, collectorCreationTime: Time)
    requires Inv(st) && OrderOk(st, e) && Adds(namespaces, st, e)
    ensures (Target(st, e), TrackedName(e.pod)) !in Newer(st.pdm, k, collectorCreationTime)
    ensures Newer(Handle(namespaces, st, e).st.pdm, k, collectorCreationTime) ==
      Newer(st.pdm, k, collectorCreationTime) +
      if k == C.KeyOf(e.owner.value, e.pod) && e.pod.created > collectorCreationTime
      then {(Target(st, e), TrackedName(e.pod))} else {}
  {
    AddedIndex(namespaces, st, e);
    var pdm := Handle(namespaces, st, e).st.pdm;
    var id := Target(st, e);
    var record := CreatedRecord(e.pod, e.owner.value);
    var b := if id in st.pdm then st.pdm[id] else [Header(MicroServiceData(e.pod, e.owner.value, id))];
    NewerIsHeld(st.pdm, k, collectorCreationTime, id, TrackedName(e.pod));
    assert id in st.pdm ==> !Holds(st.pdm[id], TrackedName(e.pod));
    forall i: int, name: string
      ensures (i, name) in Newer(pdm, k, collectorCreationTime) <==>
        || (i, name) in Newer(st.pdm, k, collectorCreationTime)
        || (i == id && name == TrackedName(e.pod) && IsNewer(record, k, collectorCreationTime))
    {
      NewerIsHeld(pdm, k, collectorCreationTime, i, name);
      NewerIsHeld(st.pdm, k, collectorCreationTime, i, name);
      HasNewerAppended(b, record, k, collectorCreationTime, name);
    }
  }

  lemma NewerDeleted(namespaces: seq<string>, st: State, e: Event, k: C.Key, collectorCreationTime: Time)
    requires Inv(st) && OrderOk(st, e) && Relevant(namespaces, e, Deleted) && !Handle(namespaces, st, e).panicked
    ensures Newer(Handle(namespaces, st, e).st.pdm, k, collectorCreationTime) ==
      NewerKept(st.pdm, k, collectorCreationTime, e.pod)
  {
    RemovalIsOrderFree(st.pdm, e.order, e.pod.name, e.pod.generateName, e.gone);
    var pdm := Handle(namespaces, st, e).st.pdm;
    forall i: int, name: string
      ensures (i, name) in Newer(pdm, k, collectorCreationTime) <==>
        (i, name) in NewerKept(st.pdm, k, collectorCreationTime, e.pod)
    {
      NewerIsHeld(pdm, k, collectorCreationTime, i, name);
      NewerIsHeld(st.pdm, k, collectorCreationTime, i, name);
      if i in st.pdm {
        HasNewerAfter(i, st.pdm[i], e.pod, e.gone, k, collectorCreationTime, name);
      }
    }
  }

  // ----- what an event does to the count -----

  lemma CountStep(
      v: seq<C.Candidate>, typ: WatchType, pod: Pod, od: OwnerDet, reported: bool, collectorCreationTime: Time,
      k: C.Key)
    requires C.Sound(v)
    ensures var w := CandidatesAfter(v, typ, pod, od, reported, collectorCreationTime);
      && C.Sound(w)
      && C.Count(w, k) ==
           if k != C.KeyOf(od, pod) then C.Count(v, k)
           else if typ == Added && reported && pod.created > collectorCreationTime then C.Count(v, k) + 1
           else if typ == Deleted && C.Count(v, k) > 0 then C.Count(v, k) - 1
           else C.Count(v, k)
  {
    var key := C.KeyOf(od, pod);
    var op :=
      if typ == Added then C.AddOp(key, pod)
      else if typ == Deleted then C.RemoveOp(key)
      else C.CheckOp(key, pod, StatusOf(pod));
    C.ApplySound(v, op);
    C.ApplyCount(v, op, k);
    C.CountIsPositive(v, k);
    assert [op][1..] == [];
  }

  // ----- do they agree -----

  ghost predicate Agrees(w: World, k: C.Key, collectorCreationTime: Time) {
    C.Count(w.candidates, k) == |Newer(w.tracking.index.pdm, k, collectorCreationTime)|
  }

  /** A deletion loses as many newer pods of the owner as the count goes down: one if the deleted pod is of this
      owner and a newer pod is tracked at all, and none otherwise. */
  ghost predicate Counted(namespaces: seq<string>, st: State, e: Event, k: C.Key, collectorCreationTime: Time) {
    Relevant(namespaces, e, Deleted) ==>
      var newer := Newer(st.pdm, k, collectorCreationTime);
      |newer| - |NewerKept(st.pdm, k, collectorCreationTime, e.pod)| ==
        if k == C.KeyOf(e.owner.value, e.pod) && newer != {} then 1 else 0
  }

  lemma NewerUntouched(namespaces: seq<string>, st: State, e: Event, k: C.Key, collectorCreationTime: Time)
    requires Inv(st) && OrderOk(st, e) && !HasOwner(namespaces, e)
    ensures Newer(Handle(namespaces, st, e).st.pdm, k, collectorCreationTime) == Newer(st.pdm, k, collectorCreationTime)
  {
    var pdm := Handle(namespaces, st, e).st.pdm;
    forall i: int, name: string
      ensures (i, name) in Newer(pdm, k, collectorCreationTime) <==>
        (i, name) in Newer(st.pdm, k, collectorCreationTime)
    {
      NewerIsHeld(pdm, k, collectorCreationTime, i, name);
      NewerIsHeld(st.pdm, k, collectorCreationTime, i, name);
    }
  }

  /** The event adds a newer pod of the owner. */
  predicate AddsNewer(namespaces: seq<string>, st: State, e: Event, k: C.Key, collectorCreationTime: Time)
    requires OrderOk(st, e)
  {
    && Adds(namespaces, st, e)
    && k == C.KeyOf(e.owner.value, e.pod) && e.pod.created > collectorCreationTime
  }

  lemma NewerStep(namespaces: seq<string>, st: State, e: Event, k: C.Key, collectorCreationTime: Time)
    requires Inv(st) && OrderOk(st, e) && !Handle(namespaces, st, e).panicked
    ensures |Newer(Handle(namespaces, st, e).st.pdm, k, collectorCreationTime)| ==
      if AddsNewer(namespaces, st, e, k, collectorCreationTime) then |Newer(st.pdm, k, collectorCreationTime)| + 1
      else if Relevant(namespaces, e, Deleted) then |NewerKept(st.pdm, k, collectorCreationTime, e.pod)|
      else |Newer(st.pdm, k, collectorCreationTime)|
  {
    if Adds(namespaces, st, e) {
      NewerAdded(namespaces, st, e, k, collectorCreationTime);
    } else if Relevant(namespaces, e, Deleted) {
      NewerDeleted(namespaces, st, e, k, collectorCreationTime);
    } else if Relevant(namespaces, e, Added) {
      AddedIndex(namespaces, st, e);
    } else if HasOwner(namespaces, e) {
      assert Handle(namespaces, st, e).st.pdm == st.pdm;
    } else {
      NewerUntouched(namespaces, st, e, k, collectorCreationTime);
    }
  }

  lemma CandidatesStep(namespaces: seq<string>, w: World, e: Event, k: C.Key, collectorCreationTime: Time)
    requires Inv(w.tracking.index) && OrderOk(w.tracking.index, e) && C.Sound(w.candidates)
    ensures var v := PodTurn(namespaces, w, e, collectorCreationTime).world.candidates;
      && C.Sound(v)
      && C.Count(v, k) ==
           if AddsNewer(namespaces, w.tracking.index, e, k, collectorCreationTime) then C.Count(w.candidates, k) + 1
           else if Relevant(namespaces, e, Deleted) && k == C.KeyOf(e.owner.value, e.pod)
                   && C.Count(w.candidates, k) > 0 then C.Count(w.candidates, k) - 1
           else C.Count(w.candidates, k)
  {
    if HasOwner(namespaces, e) {
      var out := Handle(namespaces, w.tracking.index, e);
      if e.typ == Added { AddedReport(namespaces, w.tracking.index, e); }
      CountStep(w.candidates, e.typ, e.pod, e.owner.value, out.deltas != [], collectorCreationTime, k);
    }
  }

  /** An event keeps count and number in agreement exactly if it is counted. */
  lemma AgreesExactly(namespaces: seq<string>, w: World, e: Event, k: C.Key, collectorCreationTime: Time)
    requires Inv(w.tracking.index) && OrderOk(w.tracking.index, e) && C.Sound(w.candidates)
    requires !Handle(namespaces, w.tracking.index, e).panicked && Agrees(w, k, collectorCreationTime)
    ensures Agrees(PodTurn(namespaces, w, e, collectorCreationTime).world, k, collectorCreationTime) <==>
      Counted(namespaces, w.tracking.index, e, k, collectorCreationTime)
  {
    PodTurnTakes(namespaces, w, e, collectorCreationTime);
    CandidatesStep(namespaces, w, e, k, collectorCreationTime);
    NewerStep(namespaces, w.tracking.index, e, k, collectorCreationTime);
  }

  // ----- whole streams -----

  /** At every point of the stream the count of the owner is the number of its tracked newer pods. */
  ghost predicate AgreesThroughout(
      namespaces: seq<string>, w: World, events: seq<Event>, k: C.Key, collectorCreationTime: Time)
    requires Inv(w.tracking.index) && Possible(namespaces, w.tracking.index, events)
    decreases |events|
  {
    && Agrees(w, k, collectorCreationTime)
    && (events != [] ==>
          (NextTurn(namespaces, w, events[0], collectorCreationTime);
           AgreesThroughout(namespaces, PodTurn(namespaces, w, events[0], collectorCreationTime).world, events[1..], k,
                            collectorCreationTime)))
  }

  lemma NextTurn(namespaces: seq<string>, w: World, e: Event, collectorCreationTime: Time)
    requires Inv(w.tracking.index) && OrderOk(w.tracking.index, e)
    ensures var t := PodTurn(namespaces, w, e, collectorCreationTime).world.tracking.index;
      t == Handle(namespaces, w.tracking.index, e).st && Inv(t)
  {
    PodTurnTakes(namespaces, w, e, collectorCreationTime);
    HandleInv(namespaces, w.tracking.index, e);
  }

  ghost predicate AllCounted(
      namespaces: seq<string>, st: State, events: seq<Event>, k: C.Key, collectorCreationTime: Time)
    requires Inv(st) && Possible(namespaces, st, events)
    decreases |events|
  {
    events != [] ==>
      && Counted(namespaces, st, events[0], k, collectorCreationTime)
      && (HandleInv(namespaces, st, events[0]);
          AllCounted(namespaces, Handle(namespaces, st, events[0]).st, events[1..], k, collectorCreationTime))
  }

  /** At every point of a stream the count of an owner is the number of its tracked pods that are newer than the
      collector, if and only if every deletion is counted. */
  lemma {:induction false} CountsNewerPodsExactly(
      namespaces: seq<string>, w: World, events: seq<Event>, k: C.Key, collectorCreationTime: Time)
    requires Inv(w.tracking.index) && Possible(namespaces, w.tracking.index, events) && C.Sound(w.candidates)
    requires Agrees(w, k, collectorCreationTime)
    ensures AgreesThroughout(namespaces, w, events, k, collectorCreationTime) <==>
      AllCounted(namespaces, w.tracking.index, events, k, collectorCreationTime)
    decreases |events|
  {
    if events == [] {
    } else {
      NextTurn(namespaces, w, events[0], collectorCreationTime);
      AgreesExactly(namespaces, w, events[0], k, collectorCreationTime);
      CandidatesStep(namespaces, w, events[0], k, collectorCreationTime);
      var next := PodTurn(namespaces, w, events[0], collectorCreationTime).world;
      if Agrees(next, k, collectorCreationTime) {
        CountsNewerPodsExactly(namespaces, next, events[1..], k, collectorCreationTime);
      }
    }
  }

  // ----- an old pod takes a newer one's place -----

  /** The candidates after some turns. */
  ghost function AfterTurns(namespaces: seq<string>, w: World, events: seq<Event>, collectorCreationTime: Time): World
    requires Inv(w.tracking.index) && Possible(namespaces, w.tracking.index, events)
    decreases |events|
  {
    if events == [] then w
    else
      NextTurn(namespaces, w, events[0], collectorCreationTime);
      AfterTurns(namespaces, PodTurn(namespaces, w, events[0], collectorCreationTime).world, events[1..],
                 collectorCreationTime)
  }

  lemma OneMoreTurn(namespaces: seq<string>, w: World, e: Event, rest: seq<Event>, collectorCreationTime: Time)
    requires Inv(w.tracking.index) && OrderOk(w.tracking.index, e)
    requires !Handle(namespaces, w.tracking.index, e).panicked
    requires var t := Handle(namespaces, w.tracking.index, e).st; Inv(t) && Possible(namespaces, t, rest)
    ensures Possible(namespaces, w.tracking.index, [e] + rest)
    ensures PodTurn(namespaces, w, e, collectorCreationTime).world.tracking.index ==
      Handle(namespaces, w.tracking.index, e).st
    ensures AfterTurns(namespaces, w, [e] + rest, collectorCreationTime) ==
      AfterTurns(namespaces, PodTurn(namespaces, w, e, collectorCreationTime).world, rest, collectorCreationTime)
  {
    NextTurn(namespaces, w, e, collectorCreationTime);
    assert ([e] + rest)[1..] == rest;
  }

  /** No newer pod of the owner is added. */
  ghost predicate NoneAdded(
      namespaces: seq<string>, st: State, events: seq<Event>, k: C.Key, collectorCreationTime: Time)
    requires Inv(st) && Possible(namespaces, st, events)
    decreases |events|
  {
    events != [] ==>
      && !AddsNewer(namespaces, st, events[0], k, collectorCreationTime)
      && (HandleInv(namespaces, st, events[0]);
          NoneAdded(namespaces, Handle(namespaces, st, events[0]).st, events[1..], k, collectorCreationTime))
  }

  /** An owner that is no candidate is not notified, whatever images its pods run, until a newer pod of it is added. */
  lemma {:induction false} ForgottenUntilAdded(
      namespaces: seq<string>, w: World, events: seq<Event>, k: C.Key, collectorCreationTime: Time)
    requires Inv(w.tracking.index) && Possible(namespaces, w.tracking.index, events) && C.Sound(w.candidates)
    requires C.Count(w.candidates, k) == 0
    requires NoneAdded(namespaces, w.tracking.index, events, k, collectorCreationTime)
    ensures var v := AfterTurns(namespaces, w, events, collectorCreationTime).candidates;
      forall pod: Pod, podStatus: string :: !C.Notifies(v, k, pod, podStatus)
    decreases |events|
  {
    C.CountIsPositive(w.candidates, k);
    if events == [] {
    } else {
      NextTurn(namespaces, w, events[0], collectorCreationTime);
      CandidatesStep(namespaces, w, events[0], k, collectorCreationTime);
      var next := PodTurn(namespaces, w, events[0], collectorCreationTime).world;
      ForgottenUntilAdded(namespaces, next, events[1..], k, collectorCreationTime);
      assert AfterTurns(namespaces, w, events, collectorCreationTime) ==
        AfterTurns(namespaces, next, events[1..], collectorCreationTime);
    }
  }

  /** A pod older than the collector, then a newer one of the same owner are added, and the older one is deleted. The
      newer one is still tracked, but its owner is no candidate any more. */
  lemma NewerPodForgotten(
      namespaces: seq<string>, older: Pod, newer: Pod, owner: OwnerDet, report: Report, collectorCreationTime: Time)
      returns (events: seq<Event>)
    requires Watched(namespaces, newer.namespace) && older.namespace == newer.namespace
    requires 0 <= older.created <= collectorCreationTime < newer.created
    requires older.name != "" && older.generateName == "" && TrackedName(newer) != older.name
    ensures |events| == 3 && events[2].PodSeen? && events[2].typ == Deleted && events[2].pod == older
    ensures Possible(namespaces, Start(), events)
    ensures var w := AfterTurns(namespaces, World(Tracking(Start(), report), []), events, collectorCreationTime);
      && TrackedName(newer) in Tracked(w.tracking.index.pdm)
      && C.Sound(w.candidates) && C.Count(w.candidates, C.KeyOf(owner, newer)) == 0
  {
    var k := C.KeyOf(owner, newer);
    var e0, s1 := FirstPod(namespaces, older, owner);
    var e1, s2 := JoiningPod(namespaces, older, newer, owner, s1);
    var e2 := PodSeen(Deleted, older, Option.Some(owner), {}, [0], 3);
    var w0 := World(Tracking(Start(), report), []);
    var w1 := PodTurn(namespaces, w0, e0, collectorCreationTime).world;
    NextTurn(namespaces, w0, e0, collectorCreationTime);
    CandidatesStep(namespaces, w0, e0, k, collectorCreationTime);
    var w2 := PodTurn(namespaces, w1, e1, collectorCreationTime).world;
    NextTurn(namespaces, w1, e1, collectorCreationTime);
    CandidatesStep(namespaces, w1, e1, k, collectorCreationTime);
    OldOneDeleted(namespaces, older, newer, owner, s2, e2);
    var w3 := PodTurn(namespaces, w2, e2, collectorCreationTime).world;
    NextTurn(namespaces, w2, e2, collectorCreationTime);
    CandidatesStep(namespaces, w2, e2, k, collectorCreationTime);
    OneMoreTurn(namespaces, w2, e2, [], collectorCreationTime);
    OneMoreTurn(namespaces, w1, e1, [e2] + [], collectorCreationTime);
    OneMoreTurn(namespaces, w0, e0, [e1] + ([e2] + []), collectorCreationTime);
    events := [e0] + ([e1] + ([e2] + []));
  }

  lemma OldOneDeleted(namespaces: seq<string>, older: Pod, newer: Pod, owner: OwnerDet, st: State, e: Event)
    requires Watched(namespaces, older.namespace) && older.name != "" && older.generateName == ""
    requires TrackedName(newer) != older.name && Inv(st)
    requires st.pdm == map[0 := [Header(MicroServiceData(older, owner, 0)), Record(CreatedRecord(older, owner)),
                                 Record(CreatedRecord(newer, owner))]]
    requires e == PodSeen(Deleted, older, Option.Some(owner), {}, [0], 3)
    ensures OrderOk(st, e) && !Handle(namespaces, st, e).panicked
    ensures Inv(Handle(namespaces, st, e).st)
    ensures TrackedName(newer) in Tracked(Handle(namespaces, st, e).st.pdm)
  {
    assert IsOrder([0], st.pdm);
    HandleInv(namespaces, st, e);
    RemovalIsOrderFree(st.pdm, [0], older.name, "", {});
    HoldersStep(namespaces, st, e, TrackedName(newer));
    assert FirstRecord(st.pdm[0], older.name, "") == 1;
    assert st.pdm[0][2].record.podName == TrackedName(newer);
    assert 0 in Kept(st.pdm, older, TrackedName(newer));
    TrackedIsHeld(Handle(namespaces, st, e).st.pdm, TrackedName(newer));
  }
}

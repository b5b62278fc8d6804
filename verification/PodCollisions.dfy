/** Streams on which the collector's view goes wrong: two namespaces with a pod of the same name, pods tracked
    under the generated name of another, and pods that are seen for the first time after the watermark has moved
    past their creation. */
module PodCollisions {
  import opened Types
  import opened Entries
  import opened PodIndex
  import opened PodWatch
  import opened PodHistory
  import opened PodRemoval
  import opened PodBalance
  import opened PodServices

  lemma OneMore(namespaces: seq<string>, st: State, e: Event, rest: seq<Event>)
    requires Inv(st) && OrderOk(st, e) && !Handle(namespaces, st, e).panicked
    requires Inv(Handle(namespaces, st, e).st) && Possible(namespaces, Handle(namespaces, st, e).st, rest)
    ensures var out := Handle(namespaces, st, e);
      && Possible(namespaces, st, [e] + rest)
      && Run(namespaces, st, [e] + rest) == Run(namespaces, out.st, rest)
      && Emitted(namespaces, st, [e] + rest) == out.deltas + Emitted(namespaces, out.st, rest)
  {
  }

  /** Three turns from the start that do not panic. */
  lemma ThreeTurns(
      namespaces: seq<string>, e0: Event, e1: Event, e2: Event, s1: State, s2: State, s3: State, name: string)
    requires OrderOk(Start(), e0) && s1 == Handle(namespaces, Start(), e0).st && Inv(s1)
    requires OrderOk(s1, e1) && s2 == Handle(namespaces, s1, e1).st && Inv(s2)
    requires OrderOk(s2, e2) && s3 == Handle(namespaces, s2, e2).st
    requires !Handle(namespaces, Start(), e0).panicked && !Handle(namespaces, s1, e1).panicked
    requires !Handle(namespaces, s2, e2).panicked
    ensures Possible(namespaces, Start(), [e0] + ([e1] + [e2]))
    ensures Run(namespaces, Start(), [e0] + ([e1] + [e2])) == s3
    ensures Balance(Emitted(namespaces, Start(), [e0] + ([e1] + [e2])), PodName(name)) ==
      Balance(Handle(namespaces, Start(), e0).deltas, PodName(name))
      + Balance(Handle(namespaces, s1, e1).deltas, PodName(name))
      + Balance(Handle(namespaces, s2, e2).deltas, PodName(name))
  {
    HandleInv(namespaces, s2, e2);
    OneMore(namespaces, s2, e2, []);
    assert [e2] + [] == [e2];
    OneMore(namespaces, s1, e1, [e2]);
    OneMore(namespaces, Start(), e0, [e1] + [e2]);
    BalanceOfThree(Handle(namespaces, Start(), e0).deltas, Handle(namespaces, s1, e1).deltas,
                   Handle(namespaces, s2, e2).deltas, name);
  }

  lemma BalanceOfThree(d0: seq<Delta>, d1: seq<Delta>, d2: seq<Delta>, name: string)
    ensures Balance(d0 + (d1 + (d2 + [])), PodName(name)) ==
      Balance(d0, PodName(name)) + Balance(d1, PodName(name)) + Balance(d2, PodName(name))
  {
    BalanceConcat(d2, [], PodName(name));
    BalanceConcat(d1, d2 + [], PodName(name));
    BalanceConcat(d0, d1 + (d2 + []), PodName(name));
    NothingReported(PodName(name));
  }

  /** The first pod opens a bucket. */
  lemma FirstPod(namespaces: seq<string>, pod: Pod, owner: OwnerDet) returns (e: Event, st: State)
    requires Watched(namespaces, pod.namespace) && pod.created >= 0
    ensures e == PodSeen(Added, pod, Option.Some(owner), {}, [], 1)
    ensures Inv(st) && st == Handle(namespaces, Start(), e).st && !Handle(namespaces, Start(), e).panicked
    ensures st ==
      State(map[0 := [Header(MicroServiceData(pod, owner, 0)), Record(CreatedRecord(pod, owner))]], 1, 0)
  {
    e := PodSeen(Added, pod, Option.Some(owner), {}, [], 1);
    st := Handle(namespaces, Start(), e).st;
    HandleInv(namespaces, Start(), e);
  }

  lemma FirstPodCounts(namespaces: seq<string>, pod: Pod, owner: OwnerDet, e: Event, st: State, name: string)
    requires Watched(namespaces, pod.namespace) && pod.created >= 0
    requires e == PodSeen(Added, pod, Option.Some(owner), {}, [], 1) && st == Handle(namespaces, Start(), e).st
    ensures Holders(st.pdm, name) == if name == TrackedName(pod) then {0} else {}
    ensures Balance(Handle(namespaces, Start(), e).deltas, PodName(name)) == if name == TrackedName(pod) then 1 else 0
  {
    HoldersAdded(namespaces, Start(), e, name);
    AddedDeltas(namespaces, Start(), e, name);
    assert Holders(Start().pdm, name) == {};
  }

  // ----- one name in two namespaces -----

  /** A second pod of the same name, in another namespace, opens another bucket. */
  lemma SecondPod(namespaces: seq<string>, first: Pod, owner: OwnerDet, pod: Pod, other: OwnerDet, st: State)
      returns (e: Event, t: State)
    requires Watched(namespaces, pod.namespace) && pod.created >= 0 && pod.namespace != first.namespace
    requires Inv(st) && st ==
      State(map[0 := [Header(MicroServiceData(first, owner, 0)), Record(CreatedRecord(first, owner))]], 1, 0)
    ensures e == PodSeen(Added, pod, Option.Some(other), {}, [0], 2)
    ensures OrderOk(st, e) && Inv(t) && t == Handle(namespaces, st, e).st && !Handle(namespaces, st, e).panicked
    ensures Target(st, e) == 1 && t ==
      State(st.pdm[1 := [Header(MicroServiceData(pod, other, 1)), Record(CreatedRecord(pod, other))]], 2, 0)
  {
    e := PodSeen(Added, pod, Option.Some(other), {}, [0], 2);
    assert IsOrder([0], st.pdm);
    assert FindSpec(st.pdm, [0], OwnerKey(pod, other)).None?;
    t := Handle(namespaces, st, e).st;
    HandleInv(namespaces, st, e);
  }

  lemma SecondPodCounts(namespaces: seq<string>, pod: Pod, other: OwnerDet, e: Event, st: State, name: string)
    requires Watched(namespaces, pod.namespace) && pod.created >= 0 && st.watermark == 0
    requires e == PodSeen(Added, pod, Option.Some(other), {}, [0], 2)
    requires Inv(st) && OrderOk(st, e) && Target(st, e) !in st.pdm
    ensures Holders(Handle(namespaces, st, e).st.pdm, name) ==
      if name == TrackedName(pod) then Holders(st.pdm, name) + {Target(st, e)} else Holders(st.pdm, name)
    ensures Balance(Handle(namespaces, st, e).deltas, PodName(name)) == if name == TrackedName(pod) then 1 else 0
  {
    assert Adds(namespaces, st, e);
    HoldersAdded(namespaces, st, e, name);
    AddedDeltas(namespaces, st, e, name);
  }

  /** The deletion of one of two pods of one name. */
  lemma BothForgotten(namespaces: seq<string>, st: State, pod: Pod, owner: OwnerDet) returns (e: Event, t: State)
    requires Watched(namespaces, pod.namespace) && pod.name != "" && pod.generateName == ""
    requires Inv(st) && st.pdm.Keys == {0, 1} && Holders(st.pdm, "") == {} && Holders(st.pdm, pod.name) == {0, 1}
    ensures e == PodSeen(Deleted, pod, Option.Some(owner), {}, [0, 1], 3)
    ensures OrderOk(st, e) && t == Handle(namespaces, st, e).st && !Handle(namespaces, st, e).panicked
    ensures pod.name !in Tracked(t.pdm) && Balance(Handle(namespaces, st, e).deltas, PodName(pod.name)) == -1
  {
    e := PodSeen(Deleted, pod, Option.Some(owner), {}, [0, 1], 3);
    assert IsOrder([0, 1], st.pdm);
    NobodyNamedEmpty(st.pdm);
    RemovalIsOrderFree(st.pdm, e.order, pod.name, "", {});
    t := Handle(namespaces, st, e).st;
    HoldersDeleted(namespaces, st, e, pod.name);
    KeptWithoutClash(st.pdm, pod, pod.name);
    TrackedIsHeld(st.pdm, pod.name);
    HolderLoses(st.pdm, pod, pod.name);
    DeletedDeltas(namespaces, st, e, pod.name);
    TrackedIsHeld(t.pdm, pod.name);
  }

  lemma NobodyNamedEmpty(pdm: Index)
    requires Holders(pdm, "") == {}
    ensures NoClash(pdm, "")
  {
    forall id <- pdm
      ensures !Holds(pdm[id], "")
    {
      assert id !in Holders(pdm, "");
    }
  }

  /** Pods are found by name alone. When two namespaces have a pod of the same name, deleting one of them makes
      the collector forget the other as well, and the other is never reported deleted. */
  lemma SameNameInTwoNamespaces(namespaces: seq<string>, first: Pod, second: Pod, owner: OwnerDet, other: OwnerDet)
      returns (events: seq<Event>)
    requires Watched(namespaces, first.namespace) && Watched(namespaces, second.namespace)
    requires first.name == second.name != "" && first.namespace != second.namespace
    requires first.generateName == "" && first.created >= 0 && second.created >= 0
    ensures |events| == 3 && events[2].PodSeen? && events[2].typ == Deleted && events[2].pod == first
    ensures Possible(namespaces, Start(), events)
    ensures second.name !in Tracked(Run(namespaces, Start(), events).pdm)
    ensures Balance(Emitted(namespaces, Start(), events), PodName(second.name)) == 1
  {
    var e0, s1 := FirstPod(namespaces, first, owner);
    FirstPodCounts(namespaces, first, owner, e0, s1, first.name);
    FirstPodCounts(namespaces, first, owner, e0, s1, "");
    var e1, s2 := SecondPod(namespaces, first, owner, second, other, s1);
    SecondPodCounts(namespaces, second, other, e1, s1, first.name);
    SecondPodCounts(namespaces, second, other, e1, s1, "");
    var e2, s3 := BothForgotten(namespaces, s2, first, owner);
    ThreeTurns(namespaces, e0, e1, e2, s1, s2, s3, second.name);
    events := [e0] + ([e1] + [e2]);
  }

  // ----- one name in a bucket that leaves and in one that stays -----

  /** A third pod joins the second one's microservice. */
  lemma ThirdPod(namespaces: seq<string>, second: Pod, other: OwnerDet, pod: Pod, st: State)
      returns (e: Event, t: State)
    requires Watched(namespaces, pod.namespace) && pod.created >= 0 && pod.namespace == second.namespace
    requires TrackedName(pod) != TrackedName(second)
    requires Inv(st) && st.watermark == 0 && st.nextId == 2 && st.pdm.Keys == {0, 1}
    requires st.pdm[1] == [Header(MicroServiceData(second, other, 1)), Record(CreatedRecord(second, other))]
    ensures e == PodSeen(Added, pod, Option.Some(other), {}, [1, 0], 3)
    ensures OrderOk(st, e) && Inv(t) && t == Handle(namespaces, st, e).st && !Handle(namespaces, st, e).panicked
    ensures t.pdm == st.pdm[1 := st.pdm[1] + [Record(CreatedRecord(pod, other))]]
  {
    e := PodSeen(Added, pod, Option.Some(other), {}, [1, 0], 3);
    assert IsOrder([1, 0], st.pdm);
    assert FindSpec(st.pdm, [1, 0], OwnerKey(pod, other)) == Option.Some(1);
    t := Handle(namespaces, st, e).st;
    HandleInv(namespaces, st, e);
    AddedIndex(namespaces, st, e);
    assert !Holds(st.pdm[1], TrackedName(pod));
  }

  /** The first pod is deleted and its owner is gone. Its bucket leaves; the bucket reported is the second one's. */
  lemma StayingReported(namespaces: seq<string>, first: Pod, owner: OwnerDet, st: State)
      returns (e: Event)
    requires Watched(namespaces, first.namespace) && first.name != "" && first.generateName == ""
    requires Inv(st) && st.pdm.Keys == {0, 1} && |st.pdm[0]| == 2 && |st.pdm[1]| == 3
    requires st.pdm[0][0].service.owner == owner && st.pdm[0][0].service.pod.namespace == first.namespace
    requires st.pdm[0][1].record.podName == first.name && st.pdm[1][1].record.podName == first.name
    ensures e == PodSeen(Deleted, first, Option.Some(owner), {(owner, first.namespace)}, [0, 1], 4)
    ensures OrderOk(st, e) && !Handle(namespaces, st, e).panicked
    ensures var out := Handle(namespaces, st, e);
      && 0 !in out.st.pdm && Reported(out.deltas, DELETED, SpecId(0)) == 0
      && HasHeader(out.st.pdm, 1) && Reported(out.deltas, DELETED, SpecId(1)) == 1
  {
    e := PodSeen(Deleted, first, Option.Some(owner), {(owner, first.namespace)}, [0, 1], 4);
    assert IsOrder([0, 1], st.pdm);
    assert BucketShape(0, st.pdm[0]) && BucketShape(1, st.pdm[1]);
    assert FirstRecord(st.pdm[0], first.name, "") == 1 && FirstRecord(st.pdm[1], first.name, "") == 1;
    RemovalIsOrderFree(st.pdm, e.order, first.name, "", e.gone);
    WrongServiceReported(st.pdm, e.order, first.name, "", e.gone);
    DeletedServices(namespaces, st, e, DELETED, 0);
    DeletedServices(namespaces, st, e, DELETED, 1);
    DeletedHeaders(namespaces, st, e, 1);
  }

  /** Four events from the start: a pod in one namespace; a pod of the same name in another, and a second pod beside
      it; then the first is deleted, with its owner gone. Its microservice leaves the index and is not reported;
      the other namespace's microservice is reported deleted and still has its pod. */
  lemma WrongServiceRun(
      namespaces: seq<string>, first: Pod, second: Pod, third: Pod, owner: OwnerDet, other: OwnerDet)
      returns (events: seq<Event>, e: Event)
    requires Watched(namespaces, first.namespace) && Watched(namespaces, second.namespace)
    requires first.name == second.name != "" && first.namespace != second.namespace == third.namespace
    requires first.generateName == "" && TrackedName(third) != second.name
    requires first.created >= 0 && second.created >= 0 && third.created >= 0
    ensures |events| == 3 && e.PodSeen? && e.typ == Deleted && e.pod == first
    ensures Possible(namespaces, Start(), events)
    ensures var st := Run(namespaces, Start(), events);
      && OrderOk(st, e) && !Handle(namespaces, st, e).panicked
      && var out := Handle(namespaces, st, e);
      && HasHeader(st.pdm, 0) && 0 !in out.st.pdm && Reported(out.deltas, DELETED, SpecId(0)) == 0
      && HasHeader(out.st.pdm, 1) && Reported(out.deltas, DELETED, SpecId(1)) == 1
  {
    var e0, s1 := FirstPod(namespaces, first, owner);
    var e1, s2 := SecondPod(namespaces, first, owner, second, other, s1);
    var e2, s3 := ThirdPod(namespaces, second, other, third, s2);
    e := StayingReported(namespaces, first, owner, s3);
    ThreeTurns(namespaces, e0, e1, e2, s1, s2, s3, "");
    events := [e0] + ([e1] + [e2]);
  }

  // ----- a pod tracked under the generated name of another -----

  /** Two events after which `RemovePod` panics: a pod is added; then a pod is deleted whose generated name is the
      first one's name, when the owner of the first is gone. */
  lemma PanicIsReachable(namespaces: seq<string>, web: Pod, owner: OwnerDet, deleted: Pod, other: OwnerDet)
      returns (e0: Event, e1: Event)
    requires Watched(namespaces, web.namespace) && Watched(namespaces, deleted.namespace) && web.created >= 0
    requires deleted.generateName == TrackedName(web)
    ensures e0.PodSeen? && e0.typ == Added && e0.pod == web
    ensures e1.PodSeen? && e1.typ == Deleted && e1.pod == deleted && e1.gone == {(owner, web.namespace)}
    ensures Possible(namespaces, Start(), [e0])
    ensures var st := Run(namespaces, Start(), [e0]); OrderOk(st, e1) && Handle(namespaces, st, e1).panicked
  {
    var st;
    e0, st := FirstPod(namespaces, web, owner);
    OneMore(namespaces, Start(), e0, []);
    assert [e0] + [] == [e0];
    e1 := PodSeen(Deleted, deleted, Option.Some(other), {(owner, web.namespace)}, [0], 2);
    assert IsOrder([0], st.pdm);
    RemoveScanPanics(st.pdm, [0], deleted.name, deleted.generateName, e1.gone);
    assert FirstRecord(st.pdm[0], deleted.name, deleted.generateName) == 1;
    assert 0 in Ids([0]) && PanicsOn(st.pdm[0], deleted.name, deleted.generateName, e1.gone);
  }

  /** A second pod of the same microservice joins the bucket of the first. */
  lemma JoiningPod(namespaces: seq<string>, web: Pod, pod: Pod, owner: OwnerDet, st: State)
      returns (e: Event, t: State)
    requires Watched(namespaces, pod.namespace) && pod.created >= 0 && pod.namespace == web.namespace
    requires TrackedName(pod) != TrackedName(web)
    requires Inv(st) && st ==
      State(map[0 := [Header(MicroServiceData(web, owner, 0)), Record(CreatedRecord(web, owner))]], 1, 0)
    ensures e == PodSeen(Added, pod, Option.Some(owner), {}, [0], 2)
    ensures OrderOk(st, e) && Inv(t) && t == Handle(namespaces, st, e).st && !Handle(namespaces, st, e).panicked
    ensures Adds(namespaces, st, e) && Target(st, e) == 0
    ensures t.pdm == map[0 := [Header(MicroServiceData(web, owner, 0)), Record(CreatedRecord(web, owner)),
                               Record(CreatedRecord(pod, owner))]]
  {
    e := PodSeen(Added, pod, Option.Some(owner), {}, [0], 2);
    assert IsOrder([0], st.pdm);
    assert FindSpec(st.pdm, [0], OwnerKey(pod, owner)) == Option.Some(0);
    t := Handle(namespaces, st, e).st;
    HandleInv(namespaces, st, e);
    AddedIndex(namespaces, st, e);
    assert !Holds(st.pdm[0], TrackedName(pod));
    var record := Record(CreatedRecord(pod, owner));
    assert st.pdm[0] + [record] == [st.pdm[0][0], st.pdm[0][1], record];
  }

  /** The deletion of the joined pod takes the first one out. */
  lemma WrongPodTaken(namespaces: seq<string>, web: Pod, pod: Pod, owner: OwnerDet, st: State)
      returns (e: Event, t: State)
    requires Watched(namespaces, pod.namespace) && pod.generateName == TrackedName(web) && pod.name != ""
    requires pod.name != TrackedName(web)
    requires Inv(st)
    requires st.pdm == map[0 := [Header(MicroServiceData(web, owner, 0)), Record(CreatedRecord(web, owner)),
                                 Record(CreatedRecord(pod, owner))]]
    ensures e == PodSeen(Deleted, pod, Option.Some(owner), {}, [0], 3)
    ensures OrderOk(st, e) && t == Handle(namespaces, st, e).st && !Handle(namespaces, st, e).panicked
    ensures t.pdm == map[0 := [Header(MicroServiceData(web, owner, 0)), Record(CreatedRecord(pod, owner))]]
    ensures pod.name in Tracked(t.pdm) && TrackedName(web) !in Tracked(t.pdm)
    ensures Handle(namespaces, st, e).deltas == RemovalReport(pod, owner, 0, false)
  {
    e := PodSeen(Deleted, pod, Option.Some(owner), {}, [0], 3);
    assert IsOrder([0], st.pdm);
    var b := st.pdm[0];
    assert FirstRecord(b, pod.name, pod.generateName) == 1;
    assert Without(b, 1) == [b[0], b[2]];
    RemoveScanNext(st.pdm, [0], 0, pod.name, pod.generateName, {});
    assert [0][..1] == [0] && [0][..0] == [];
    t := Handle(namespaces, st, e).st;
    OnlyTracked(t.pdm, CreatedRecord(pod, owner));
  }

  lemma OnlyTracked(pdm: Index, record: PodRecord)
    requires pdm.Keys == {0} && |pdm[0]| == 2 && pdm[0][0].Header? && pdm[0][1] == Record(record)
    ensures Tracked(pdm) == {record.podName}
  {
    assert record.podName in Tracked(pdm) by {
      assert 0 in pdm && pdm[0][1].Record?;
    }
  }

  /** Three events after which the collector tracks the deleted pod and has lost another: two pods of one
      microservice are added, then the second is deleted, whose generated name is the first one's name. The
      deleted pod is reported deleted; the lost one never is. */
  lemma WrongPodLost(namespaces: seq<string>, web: Pod, pod: Pod, owner: OwnerDet) returns (events: seq<Event>)
    requires Watched(namespaces, web.namespace) && web.namespace == pod.namespace
    requires web.created >= 0 && pod.created >= 0
    requires pod.generateName == TrackedName(web) && pod.name != "" && pod.name != TrackedName(web)
    ensures |events| == 3 && events[2].PodSeen? && events[2].typ == Deleted && events[2].pod == pod
    ensures Possible(namespaces, Start(), events)
    ensures var names := Tracked(Run(namespaces, Start(), events).pdm);
      pod.name in names && TrackedName(web) !in names
    ensures Balance(Emitted(namespaces, Start(), events), PodName(pod.name)) == 0
    ensures Balance(Emitted(namespaces, Start(), events), PodName(TrackedName(web))) == 1
  {
    var e0, s1 := FirstPod(namespaces, web, owner);
    var e1, s2 := JoiningPod(namespaces, web, pod, owner, s1);
    var e2, s3 := WrongPodTaken(namespaces, web, pod, owner, s2);
    FirstPodCounts(namespaces, web, owner, e0, s1, pod.name);
    FirstPodCounts(namespaces, web, owner, e0, s1, TrackedName(web));
    AddedDeltas(namespaces, s1, e1, pod.name);
    AddedDeltas(namespaces, s1, e1, TrackedName(web));
    RemovalBalance(pod, owner, 0, false, pod.name);
    RemovalBalance(pod, owner, 0, false, TrackedName(web));
    ThreeTurns(namespaces, e0, e1, e2, s1, s2, s3, pod.name);
    ThreeTurns(namespaces, e0, e1, e2, s1, s2, s3, TrackedName(web));
    events := [e0] + ([e1] + [e2]);
  }

  // ----- pods seen late -----

  /** A modified event of a terminating pod moves the watermark in the middle of a session. A pod whose name is
      not tracked and whose addition is delivered next is reported exactly if it was created no earlier than
      that moment. */
  lemma TerminationHidesEarlierPods(namespaces: seq<string>, st: State, m: Event, a: Event)
    requires Inv(st) && OrderOk(st, m) && OrderOk(st, a)
    requires Relevant(namespaces, m, Modified) && m.pod.deletion.Some?
    requires Relevant(namespaces, a, Added) && TrackedName(a.pod) !in Tracked(st.pdm)
    ensures Inv(Handle(namespaces, st, m).st) && Possible(namespaces, st, [m] + ([a] + []))
    ensures Balance(Emitted(namespaces, st, [m] + ([a] + [])), PodName(TrackedName(a.pod))) ==
      if a.pod.created >= m.now then 1 else 0
  {
    HandleInv(namespaces, st, m);
    var s1 := Handle(namespaces, st, m).st;
    HandleInv(namespaces, s1, a);
    TrackedIsHeld(st.pdm, TrackedName(a.pod));
    OneMore(namespaces, s1, a, []);
    OneMore(namespaces, st, m, [a] + []);
    AddedDeltas(namespaces, s1, a, TrackedName(a.pod));
    assert Emitted(namespaces, st, [m] + ([a] + [])) == Handle(namespaces, s1, a).deltas;
  }
}

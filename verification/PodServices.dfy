/** Microservice entries over whole streams of events, and the buckets that never change again. */
module PodServices {
  import opened Types
  import opened Entries
  import opened PodIndex
  import opened PodWatch
  import opened PodHistory
  import opened PodRemoval
  import opened PodBalance

  /** The bucket describes a microservice; cron job buckets are empty and do not. */
  predicate HasHeader(pdm: Index, id: int) {
    id in pdm && pdm[id] != []
  }

  function HeaderCount(pdm: Index, id: int): nat {
    if HasHeader(pdm, id) then 1 else 0
  }

  // ----- one event -----

  /** The event opens a bucket for a microservice. */
  predicate Opens(namespaces: seq<string>, st: State, e: Event)
    requires OrderOk(st, e)
  {
    Adds(namespaces, st, e) && FindSpec(st.pdm, e.order, OwnerKey(e.pod, e.owner.value)).None?
  }

  lemma AddedServices(namespaces: seq<string>, st: State, e: Event, change: Change, id: int)
    requires Inv(st) && OrderOk(st, e) && Relevant(namespaces, e, Added)
    ensures var out := Handle(namespaces, st, e);
      Reported(out.deltas, change, SpecId(id)) ==
        if change == CREATED && Opens(namespaces, st, e) && id == st.nextId then 1 else 0
  {
    AddedReport(namespaces, st, e);
    var pods := PodDelta(CREATED, CreatedRecord(e.pod, e.owner.value));
    var micro := MicroDelta(CREATED, MicroServiceData(e.pod, e.owner.value, st.nextId));
    ReportedOne(pods, change, SpecId(id));
    ReportedTwo(micro, pods, change, SpecId(id));
  }

  lemma AddedHeaders(namespaces: seq<string>, st: State, e: Event, id: int)
    requires Inv(st) && OrderOk(st, e) && Relevant(namespaces, e, Added)
    ensures HasHeader(Handle(namespaces, st, e).st.pdm, id) <==>
      HasHeader(st.pdm, id) || (Opens(namespaces, st, e) && id == st.nextId)
  {
    AddedIndex(namespaces, st, e);
  }

  /** The removal that a deletion makes. */
  function RemovalOf(st: State, e: Event): Removal
    requires Shape(st.pdm) && e.PodSeen? && IsOrder(e.order, st.pdm)
  {
    RemoveScan(st.pdm, e.order, e.pod.name, e.pod.generateName, e.gone)
  }

  /** The microservice leaves the index. */
  predicate Left(r: Removal, pdm: Index, id: int) {
    id in pdm && id !in r.pdm
  }

  /** A removal keeps the header of every bucket that stays; only buckets with a header leave. */
  lemma DeletedHeaders(namespaces: seq<string>, st: State, e: Event, id: int)
    requires Inv(st) && OrderOk(st, e) && Relevant(namespaces, e, Deleted) && !Handle(namespaces, st, e).panicked
    ensures var r := RemovalOf(st, e);
      && (HasHeader(Handle(namespaces, st, e).st.pdm, id) <==> HasHeader(st.pdm, id) && !Left(r, st.pdm, id))
      && (Left(r, st.pdm, id) ==> HasHeader(st.pdm, id))
  {
    RemovalIsOrderFree(st.pdm, e.order, e.pod.name, e.pod.generateName, e.gone);
    if id in st.pdm && BucketAfter(st.pdm[id], e.pod.name, e.pod.generateName, e.gone).Some? {
      BucketAfterShape(id, st.pdm[id], e.pod.name, e.pod.generateName, e.gone);
    }
  }

  lemma DeletedServices(namespaces: seq<string>, st: State, e: Event, change: Change, id: int)
    requires Inv(st) && OrderOk(st, e) && Relevant(namespaces, e, Deleted) && !Handle(namespaces, st, e).panicked
    ensures Reported(Handle(namespaces, st, e).deltas, change, SpecId(id)) ==
      if change == DELETED && Reports(RemovalOf(st, e), id) then 1 else 0
  {
    RemovalIsOrderFree(st.pdm, e.order, e.pod.name, e.pod.generateName, e.gone);
    RemoveScanAnswer(st.pdm, e.order, e.pod.name, e.pod.generateName, e.gone);
    var r := RemovalOf(st, e);
    var pods := PodDelta(DELETED, DeletedRecord(e.pod, r.owner));
    var micro := MicroDelta(DELETED, MicroServiceData(e.pod, r.owner, r.podSpecId));
    ReportedOne(pods, change, SpecId(id));
    ReportedTwo(pods, micro, change, SpecId(id));
    assert [pods] + [] == [pods];
  }

  /** A deletion reports the microservice exactly if its bucket leaves. */
  predicate ServiceTold(namespaces: seq<string>, st: State, e: Event, id: int)
    requires Shape(st.pdm) && OrderOk(st, e)
  {
    Relevant(namespaces, e, Deleted) ==> var r := RemovalOf(st, e); Reports(r, id) <==> Left(r, st.pdm, id)
  }

  /** What an event that does not panic reports about a microservice, and what it does to it. The two agree exactly
      if a deletion reports what leaves. */
  lemma ServiceStep(namespaces: seq<string>, st: State, e: Event, id: int)
    requires Inv(st) && OrderOk(st, e) && !Handle(namespaces, st, e).panicked
    ensures var out := Handle(namespaces, st, e);
      && Reported(out.deltas, CREATED, SpecId(id)) == (if Opens(namespaces, st, e) && id == st.nextId then 1 else 0)
      && (Balance(out.deltas, SpecId(id)) == HeaderCount(out.st.pdm, id) - HeaderCount(st.pdm, id) <==>
            ServiceTold(namespaces, st, e, id))
  {
    var deltas := Handle(namespaces, st, e).deltas;
    if Relevant(namespaces, e, Added) {
      AddedServices(namespaces, st, e, CREATED, id);
      AddedServices(namespaces, st, e, DELETED, id);
      AddedHeaders(namespaces, st, e, id);
    } else if Relevant(namespaces, e, Deleted) {
      DeletedServices(namespaces, st, e, CREATED, id);
      DeletedServices(namespaces, st, e, DELETED, id);
      DeletedHeaders(namespaces, st, e, id);
    } else if deltas != [] {
      assert deltas == [deltas[0]];
      ReportedOne(deltas[0], CREATED, SpecId(id));
      ReportedOne(deltas[0], DELETED, SpecId(id));
    } else {
      NothingReported(SpecId(id));
    }
  }

  /** A deletion that cannot take a pod from one bucket while another leaves tells all microservices. */
  lemma AloneIsTold(namespaces: seq<string>, st: State, e: Event, id: int)
    requires Inv(st) && OrderOk(st, e) && !Handle(namespaces, st, e).panicked
    requires Relevant(namespaces, e, Deleted) ==> LeavesAlone(st.pdm, e.pod.name, e.pod.generateName, e.gone)
    ensures ServiceTold(namespaces, st, e, id)
  {
    if Relevant(namespaces, e, Deleted) {
      RemovalIsOrderFree(st.pdm, e.order, e.pod.name, e.pod.generateName, e.gone);
      AloneIsReported(st.pdm, e.order, e.pod.name, e.pod.generateName, e.gone, id);
    }
  }

  /** So does every deletion without a clash from an index that holds each name once. */
  lemma UniqueIsTold(namespaces: seq<string>, st: State, e: Event, id: int)
    requires Inv(st) && OrderOk(st, e) && !Handle(namespaces, st, e).panicked
    requires NoClashIn(namespaces, st, e) && Unique(st.pdm)
    ensures ServiceTold(namespaces, st, e, id)
  {
    if Relevant(namespaces, e, Deleted) {
      forall i <- st.pdm | Loses(st.pdm[i], e.pod.name, e.pod.generateName)
        ensures i in Holders(st.pdm, e.pod.name)
      {
        assert !Holds(st.pdm[i], e.pod.generateName);
      }
    }
    AloneIsTold(namespaces, st, e, id);
  }

  // ----- whole streams -----

  /** At every point of the stream, the balance of the entries so far, which starts with `balance`, is one if the
      microservice is in the index and zero if not. */
  ghost predicate ServiceTells(namespaces: seq<string>, st: State, events: seq<Event>, id: int, balance: int)
    requires Inv(st) && Possible(namespaces, st, events)
    decreases |events|
  {
    && balance == HeaderCount(st.pdm, id)
    && (events != [] ==>
          (HandleInv(namespaces, st, events[0]);
           ServiceTells(namespaces, Handle(namespaces, st, events[0]).st, events[1..], id,
                        balance + Balance(Handle(namespaces, st, events[0]).deltas, SpecId(id)))))
  }

  predicate AllServiceTold(namespaces: seq<string>, st: State, events: seq<Event>, id: int)
    requires Inv(st) && Possible(namespaces, st, events)
    decreases |events|
  {
    events != [] ==>
      && ServiceTold(namespaces, st, events[0], id)
      && (HandleInv(namespaces, st, events[0]);
          AllServiceTold(namespaces, Handle(namespaces, st, events[0]).st, events[1..], id))
  }

  /** At every point of a stream the pod watcher's entries tell whether a microservice is in the index, if and only
      if every deletion reports it exactly if its bucket leaves. */
  lemma {:induction false} ServiceBalanceExactly(namespaces: seq<string>, st: State, events: seq<Event>, id: int)
    requires Inv(st) && Possible(namespaces, st, events)
    ensures ServiceTells(namespaces, st, events, id, HeaderCount(st.pdm, id)) <==>
      AllServiceTold(namespaces, st, events, id)
    decreases |events|
  {
    if events == [] {
    } else {
      HandleInv(namespaces, st, events[0]);
      ServiceStep(namespaces, st, events[0], id);
      var out := Handle(namespaces, st, events[0]);
      var balance := HeaderCount(st.pdm, id) + Balance(out.deltas, SpecId(id));
      if balance == HeaderCount(out.st.pdm, id) {
        ServiceBalanceExactly(namespaces, out.st, events[1..], id);
      }
    }
  }

  /** Over any stream a spec id is reported created at most once, and never if it was issued before. */
  lemma {:induction false} CreatedAtMostOnce(namespaces: seq<string>, st: State, events: seq<Event>, id: int)
    requires Inv(st) && Possible(namespaces, st, events)
    ensures Reported(Emitted(namespaces, st, events), CREATED, SpecId(id)) <= if id < st.nextId then 0 else 1
    decreases |events|
  {
    if events == [] {
      NothingReported(SpecId(id));
    } else {
      HandleInv(namespaces, st, events[0]);
      ServiceStep(namespaces, st, events[0], id);
      var out := Handle(namespaces, st, events[0]);
      var rest := Emitted(namespaces, out.st, events[1..]);
      CreatedAtMostOnce(namespaces, out.st, events[1..], id);
      ReportedConcat(out.deltas, rest, CREATED, SpecId(id));
      assert Emitted(namespaces, st, events) == out.deltas + rest;
    }
  }

  lemma {:induction false} ServiceBalance(namespaces: seq<string>, st: State, events: seq<Event>, id: int)
    requires Inv(st) && Possible(namespaces, st, events) && AllServiceTold(namespaces, st, events, id)
    ensures HeaderCount(st.pdm, id) + Balance(Emitted(namespaces, st, events), SpecId(id)) ==
      HeaderCount(Run(namespaces, st, events).pdm, id)
    decreases |events|
  {
    if events == [] {
      NothingReported(SpecId(id));
    } else {
      HandleInv(namespaces, st, events[0]);
      ServiceStep(namespaces, st, events[0], id);
      var out := Handle(namespaces, st, events[0]);
      var rest := Emitted(namespaces, out.st, events[1..]);
      ServiceBalance(namespaces, out.st, events[1..], id);
      BalanceConcat(out.deltas, rest, SpecId(id));
      assert Emitted(namespaces, st, events) == out.deltas + rest;
    }
  }

  /** From the start, on streams whose deletions report the microservice exactly if it leaves: it is reported created
      at most once, deleted at most once and only after that, and is in the index exactly in between. */
  lemma ServicesAreReportedOnce(namespaces: seq<string>, events: seq<Event>, id: int)
    requires Possible(namespaces, Start(), events) && AllServiceTold(namespaces, Start(), events, id)
    ensures var all := Emitted(namespaces, Start(), events);
      var created, deleted := Reported(all, CREATED, SpecId(id)), Reported(all, DELETED, SpecId(id));
      && deleted <= created <= 1
      && (HasHeader(Run(namespaces, Start(), events).pdm, id) <==> created == 1 && deleted == 0)
  {
    CreatedAtMostOnce(namespaces, Start(), events, id);
    ServiceBalance(namespaces, Start(), events, id);
  }

  // ----- buckets without pods -----

  lemma RemovalLeavesShort(
      pdm: Index, order: seq<int>, name: string, generateName: string, gone: Gone, id: int)
    requires Shape(pdm) && IsPartialOrder(order, pdm) && id in pdm && |pdm[id]| <= 1
    ensures var r := RemoveScan(pdm, order, name, generateName, gone); id in r.pdm && r.pdm[id] == pdm[id]
  {
    RemoveScanEachBucket(pdm, order, name, generateName, gone, id);
    assert BucketShape(id, pdm[id]);
    assert FirstRecord(pdm[id], name, generateName) == |pdm[id]|;
  }

  lemma AbandonedStep(namespaces: seq<string>, st: State, e: Event, id: int)
    requires Inv(st) && OrderOk(st, e) && id in st.pdm && |st.pdm[id]| <= 1
    ensures var pdm := Handle(namespaces, st, e).st.pdm; id in pdm && pdm[id] == st.pdm[id]
  {
    if Relevant(namespaces, e, Deleted) {
      RemovalLeavesShort(st.pdm, e.order, e.pod.name, e.pod.generateName, e.gone, id);
    } else if Relevant(namespaces, e, Added) {
      AddedIndex(namespaces, st, e);
    }
  }

  /** A bucket that has lost its last pod while its owner still existed stays as it is for good: no pod ever
      joins it again and it never leaves the index. So do the empty buckets of cron jobs. */
  lemma {:induction false} AbandonedForever(namespaces: seq<string>, st: State, events: seq<Event>, id: int)
    requires Inv(st) && Possible(namespaces, st, events)
    requires id in st.pdm && |st.pdm[id]| <= 1
    ensures var pdm := Run(namespaces, st, events).pdm; id in pdm && pdm[id] == st.pdm[id]
    decreases |events|
  {
    if events == [] {
    } else {
      HandleInv(namespaces, st, events[0]);
      AbandonedStep(namespaces, st, events[0], id);
      AbandonedForever(namespaces, Handle(namespaces, st, events[0]).st, events[1..], id);
    }
  }
}

/** What holds over whole streams of pod watch events: which names are tracked and where, how the CREATED and
    DELETED entries balance, and which buckets never change again. */
module PodHistory {
  import opened Types
  import opened PodIndex
  import opened PodWatch

  // ----- runs -----

  /** The events can be handled one after the other without a panic. */
  ghost predicate Possible(namespaces: seq<string>, st: State, events: seq<Event>)
    requires Inv(st)
    decreases |events|
  {
    events != [] ==>
      && OrderOk(st, events[0])
      && !Handle(namespaces, st, events[0]).panicked
      && (HandleInv(namespaces, st, events[0]); Possible(namespaces, Handle(namespaces, st, events[0]).st, events[1..]))
  }

  /** In every reachable state the invariant holds. */
  ghost function Run(namespaces: seq<string>, st: State, events: seq<Event>): (t: State)
    requires Inv(st) && Possible(namespaces, st, events)
    ensures Inv(t)
    decreases |events|
  {
    if events == [] then st
    else
      HandleInv(namespaces, st, events[0]);
      Run(namespaces, Handle(namespaces, st, events[0]).st, events[1..])
  }

  /** The entries the pod watcher appends during a run, in order. */
  ghost function Emitted(namespaces: seq<string>, st: State, events: seq<Event>): seq<Delta>
    requires Inv(st) && Possible(namespaces, st, events)
    decreases |events|
  {
    if events == [] then []
    else
      HandleInv(namespaces, st, events[0]);
      Handle(namespaces, st, events[0]).deltas
      + Emitted(namespaces, Handle(namespaces, st, events[0]).st, events[1..])
  }

  /** One more event at the end of a stream. */
  lemma {:induction false} OneMoreEvent(namespaces: seq<string>, st: State, events: seq<Event>, e: Event)
    requires Inv(st) && Possible(namespaces, st, events)
    requires var t := Run(namespaces, st, events); OrderOk(t, e) && !Handle(namespaces, t, e).panicked
    ensures Possible(namespaces, st, events + [e])
    ensures var out := Handle(namespaces, Run(namespaces, st, events), e);
      && Run(namespaces, st, events + [e]) == out.st
      && Emitted(namespaces, st, events + [e]) == Emitted(namespaces, st, events) + out.deltas
    decreases |events|
  {
    if events == [] {
      assert events + [e] == [e] && [e][1..] == [];
      HandleInv(namespaces, st, e);
      assert Handle(namespaces, st, e).deltas + [] == [] + Handle(namespaces, st, e).deltas;
    } else {
      HandleInv(namespaces, st, events[0]);
      var out := Handle(namespaces, st, events[0]);
      assert (events + [e])[0] == events[0] && (events + [e])[1..] == events[1..] + [e];
      OneMoreEvent(namespaces, out.st, events[1..], e);
      var last := Handle(namespaces, Run(namespaces, st, events), e).deltas;
      var rest := Emitted(namespaces, out.st, events[1..]);
      assert out.deltas + (rest + last) == (out.deltas + rest) + last;
    }
  }

  // ----- what one event does to the tracked names -----

  predicate Relevant(namespaces: seq<string>, e: Event, typ: WatchType) {
    e.PodSeen? && e.typ == typ && e.owner.Some? && Watched(namespaces, e.pod.namespace)
  }

  /** The bucket an added pod goes to: that of its microservice, or a new one. */
  function Target(st: State, e: Event): int
    requires e.PodSeen? && e.owner.Some? && IsOrder(e.order, st.pdm)
  {
    FindSpec(st.pdm, e.order, OwnerKey(e.pod, e.owner.value)).GetOr(st.nextId)
  }

  /** The event makes the watcher track one more pod. */
  predicate Adds(namespaces: seq<string>, st: State, e: Event)
    requires OrderOk(st, e)
  {
    && Relevant(namespaces, e, Added)
    && e.pod.created >= st.watermark
    && Target(st, e) !in Holders(st.pdm, TrackedName(e.pod))
  }

  /** Of the buckets that hold a name, those that still do when a pod is deleted: where not that name is taken. */
  function Kept(pdm: Index, pod: Pod, name: string): set<int> {
    set id | id in Holders(pdm, name) && Taken(pdm[id], pod.name, pod.generateName) != Some(name)
  }

  /** No tracked pod carries the generated name of a pod that is being deleted. */
  ghost predicate NoClashIn(namespaces: seq<string>, st: State, e: Event) {
    Relevant(namespaces, e, Deleted) ==> NoClash(st.pdm, e.pod.generateName)
  }

  lemma HoldsAppended(b: Bucket, record: PodRecord, name: string)
    ensures Holds(b + [Record(record)], name) <==> Holds(b, name) || record.podName == name
  {
    var c := b + [Record(record)];
    assert forall i :: 0 <= i < |b| ==> c[i] == b[i];
    assert c[|b|] == Record(record);
  }

  lemma HoldersPut(pdm: Index, id: int, b: Bucket, name: string)
    ensures Holders(pdm[id := b], name) ==
      if Holds(b, name) then Holders(pdm, name) + {id} else Holders(pdm, name) - {id}
  {
  }

  /** An added pod joins the bucket of its microservice, or opens a bucket with a new id. */
  lemma AddedIndex(namespaces: seq<string>, st: State, e: Event)
    requires Inv(st) && OrderOk(st, e) && Relevant(namespaces, e, Added)
    ensures var pdm, id := Handle(namespaces, st, e).st.pdm, Target(st, e);
      var record := CreatedRecord(e.pod, e.owner.value);
      var b := if id in st.pdm then st.pdm[id] else [Header(MicroServiceData(e.pod, e.owner.value, id))];
      pdm == if Adds(namespaces, st, e) then st.pdm[id := b + [Record(record)]] else st.pdm
  {
    var id := Target(st, e);
    var header := Header(MicroServiceData(e.pod, e.owner.value, id));
    var record := Record(CreatedRecord(e.pod, e.owner.value));
    assert [header, record] == [header] + [record];
    assert id in Holders(st.pdm, TrackedName(e.pod)) <==> id in st.pdm && Holds(st.pdm[id], TrackedName(e.pod));
  }

  lemma HoldersAdded(namespaces: seq<string>, st: State, e: Event, name: string)
    requires Inv(st) && OrderOk(st, e) && Relevant(namespaces, e, Added)
    ensures Holders(Handle(namespaces, st, e).st.pdm, name) ==
      if Adds(namespaces, st, e) && name == TrackedName(e.pod) then Holders(st.pdm, name) + {Target(st, e)}
      else Holders(st.pdm, name)
  {
    AddedIndex(namespaces, st, e);
    if Adds(namespaces, st, e) {
      var id := Target(st, e);
      var b := if id in st.pdm then st.pdm[id] else [Header(MicroServiceData(e.pod, e.owner.value, id))];
      HoldersPut(st.pdm, id, b + [Record(CreatedRecord(e.pod, e.owner.value))], name);
      HoldsAppended(b, CreatedRecord(e.pod, e.owner.value), name);
      assert id in Holders(st.pdm, name) <==> Holds(b, name);
    }
  }

  lemma HoldersDeleted(namespaces: seq<string>, st: State, e: Event, name: string)
    requires Inv(st) && OrderOk(st, e) && Relevant(namespaces, e, Deleted) && !Handle(namespaces, st, e).panicked
    ensures CannotPanic(st.pdm, e.pod.name, e.pod.generateName, e.gone)
    ensures Holders(Handle(namespaces, st, e).st.pdm, name) == Kept(st.pdm, e.pod, name)
  {
    RemovalIsOrderFree(st.pdm, e.order, e.pod.name, e.pod.generateName, e.gone);
    HoldersAfterAnyRemoval(st.pdm, e.pod.name, e.pod.generateName, e.gone, name);
  }

  /** What an event that does not panic does to the buckets that hold a name: an added pod joins one, a deletion
      takes the name out where it is the one taken. */
  lemma HoldersStep(namespaces: seq<string>, st: State, e: Event, name: string)
    requires Inv(st) && OrderOk(st, e) && !Handle(namespaces, st, e).panicked
    ensures Holders(Handle(namespaces, st, e).st.pdm, name) ==
      if Adds(namespaces, st, e) && name == TrackedName(e.pod) then Holders(st.pdm, name) + {Target(st, e)}
      else if Relevant(namespaces, e, Deleted) then Kept(st.pdm, e.pod, name)
      else Holders(st.pdm, name)
  {
    if Relevant(namespaces, e, Added) {
      HoldersAdded(namespaces, st, e, name);
    } else if Relevant(namespaces, e, Deleted) {
      HoldersDeleted(namespaces, st, e, name);
    } else if e.CronJobAdded? {
      HoldersPut(st.pdm, st.nextId, [], name);
    } else {
      assert Handle(namespaces, st, e).st.pdm == st.pdm;
    }
  }

  /** Without a clash, exactly the deleted name is taken, wherever it is held. */
  lemma KeptWithoutClash(pdm: Index, pod: Pod, name: string)
    requires Shape(pdm) && NoClash(pdm, pod.generateName)
    ensures Kept(pdm, pod, name) == if name == pod.name then {} else Holders(pdm, name)
  {
    forall id <- pdm
      ensures Taken(pdm[id], pod.name, pod.generateName) == if Holds(pdm[id], pod.name) then Some(pod.name) else None
    {
      assert !Holds(pdm[id], pod.generateName);
    }
  }
}

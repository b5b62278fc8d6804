/** The tracked pods as a set of names, and how CREATED and DELETED entries balance over whole streams of events.
    The theorems are about every stream without a panic; where the promise fails for some, they say exactly for
    which, by a condition on each event and the index before it. */
module PodBalance {
  import opened Types
  import opened Entries
  import opened PodIndex
  import opened PodWatch
  import opened PodHistory
  import opened PodRemoval

  // ----- the tracked names -----

  /** The names of the pods in the index. */
  function Tracked(pdm: Index): set<string> {
    set id, i | id in pdm && 0 <= i < |pdm[id]| && pdm[id][i].Record? :: pdm[id][i].record.podName
  }

  lemma TrackedIsHeld(pdm: Index, name: string)
    ensures name in Tracked(pdm) <==> Holders(pdm, name) != {}
  {
    if name in Tracked(pdm) {
      var id, i :| id in pdm && 0 <= i < |pdm[id]| && pdm[id][i].Record? && pdm[id][i].record.podName == name;
      assert id in Holders(pdm, name);
    }
    var holders := Holders(pdm, name);
    if holders != {} {
      var id := AnyOf(holders);
    }
  }

  datatype NameOp = Add(name: string) | Drop(name: string)

  /** Additions past the watermark and deletions, without looking at the index. */
  function OpOf(namespaces: seq<string>, st: State, e: Event): Option<NameOp> {
    if Relevant(namespaces, e, Added) && e.pod.created >= st.watermark then Some(Add(TrackedName(e.pod)))
    else if Relevant(namespaces, e, Deleted) then Some(Drop(e.pod.name))
    else None
  }

  function Replay(names: set<string>, op: Option<NameOp>): set<string> {
    match op
    case None => names
    case Some(Add(name)) => names + {name}
    case Some(Drop(name)) => names - {name}
  }

  /** A deletion loses the name of the deleted pod, if that is tracked, and no other. */
  ghost predicate NamesFollow(namespaces: seq<string>, st: State, e: Event) {
    Relevant(namespaces, e, Deleted) ==>
      forall name <- Tracked(st.pdm) :: Kept(st.pdm, e.pod, name) == {} <==> name == e.pod.name
  }

  /** The names after the event are those of the replay exactly if a deletion loses the right name. */
  lemma TrackedStepExactly(namespaces: seq<string>, st: State, e: Event)
    requires Inv(st) && OrderOk(st, e) && !Handle(namespaces, st, e).panicked
    ensures Tracked(Handle(namespaces, st, e).st.pdm) == Replay(Tracked(st.pdm), OpOf(namespaces, st, e)) <==>
      NamesFollow(namespaces, st, e)
  {
    var pdm := Handle(namespaces, st, e).st.pdm;
    var replayed := Replay(Tracked(st.pdm), OpOf(namespaces, st, e));
    forall name
      ensures name in Tracked(pdm) <==>
        if Relevant(namespaces, e, Deleted) then name in Tracked(st.pdm) && Kept(st.pdm, e.pod, name) != {}
        else name in replayed
    {
      HoldersStep(namespaces, st, e, name);
      TrackedIsHeld(st.pdm, name);
      TrackedIsHeld(pdm, name);
    }
    if Relevant(namespaces, e, Deleted) && Tracked(pdm) == replayed {
      forall name <- Tracked(st.pdm)
        ensures Kept(st.pdm, e.pod, name) == {} <==> name == e.pod.name
      {
        assert name in Tracked(pdm) <==> name in replayed;
      }
    }
  }

  /** At every point of the stream, the tracked names are those of the replay, which starts with `names`. */
  ghost predicate IsReplayed(namespaces: seq<string>, st: State, events: seq<Event>, names: set<string>)
    requires Inv(st) && Possible(namespaces, st, events)
    decreases |events|
  {
    && Tracked(st.pdm) == names
    && (events != [] ==>
          (HandleInv(namespaces, st, events[0]);
           IsReplayed(namespaces, Handle(namespaces, st, events[0]).st, events[1..],
                      Replay(names, OpOf(namespaces, st, events[0])))))
  }

  ghost predicate AllNamesFollow(namespaces: seq<string>, st: State, events: seq<Event>)
    requires Inv(st) && Possible(namespaces, st, events)
    decreases |events|
  {
    events != [] ==>
      && NamesFollow(namespaces, st, events[0])
      && (HandleInv(namespaces, st, events[0]);
          AllNamesFollow(namespaces, Handle(namespaces, st, events[0]).st, events[1..]))
  }

  /** The index refines a plain set of names: at every point of a stream, the names in its buckets are what
      replaying the accepted additions and the deletions leaves, if and only if every deletion loses the name of
      the deleted pod and no other. */
  lemma {:induction false} IndexIsASetOfNames(namespaces: seq<string>, st: State, events: seq<Event>)
    requires Inv(st) && Possible(namespaces, st, events)
    ensures IsReplayed(namespaces, st, events, Tracked(st.pdm)) <==> AllNamesFollow(namespaces, st, events)
    decreases |events|
  {
    if events == [] {
    } else {
      HandleInv(namespaces, st, events[0]);
      TrackedStepExactly(namespaces, st, events[0]);
      var t := Handle(namespaces, st, events[0]).st;
      var replayed := Replay(Tracked(st.pdm), OpOf(namespaces, st, events[0]));
      if Tracked(t.pdm) == replayed {
        IndexIsASetOfNames(namespaces, t, events[1..]);
      }
    }
  }

  /** Without a clash on the generated name a deletion loses the right name. */
  lemma NamesFollowWithoutClash(namespaces: seq<string>, st: State, e: Event)
    requires Inv(st) && NoClashIn(namespaces, st, e)
    ensures NamesFollow(namespaces, st, e)
  {
    if Relevant(namespaces, e, Deleted) {
      forall name <- Tracked(st.pdm)
        ensures Kept(st.pdm, e.pod, name) == {} <==> name == e.pod.name
      {
        KeptWithoutClash(st.pdm, e.pod, name);
        TrackedIsHeld(st.pdm, name);
      }
    }
  }

  // ----- one bucket for each name -----

  ghost predicate Unique(pdm: Index) {
    forall name: string, i, j :: i in Holders(pdm, name) && j in Holders(pdm, name) ==> i == j
  }

  /** Each name stays in one bucket exactly as long as no pod is added whose name is tracked elsewhere. */
  lemma UniqueExactly(namespaces: seq<string>, st: State, e: Event)
    requires Inv(st) && OrderOk(st, e) && !Handle(namespaces, st, e).panicked && Unique(st.pdm)
    ensures Unique(Handle(namespaces, st, e).st.pdm) <==>
      (Adds(namespaces, st, e) ==> TrackedName(e.pod) !in Tracked(st.pdm))
  {
    var pdm := Handle(namespaces, st, e).st.pdm;
    forall name: string
      ensures Holders(pdm, name) ==
        if Adds(namespaces, st, e) && name == TrackedName(e.pod) then Holders(st.pdm, name) + {Target(st, e)}
        else if Relevant(namespaces, e, Deleted) then Kept(st.pdm, e.pod, name)
        else Holders(st.pdm, name)
    {
      HoldersStep(namespaces, st, e, name);
    }
    if Adds(namespaces, st, e) {
      var name := TrackedName(e.pod);
      TrackedIsHeld(st.pdm, name);
      var holders := Holders(st.pdm, name);
      if holders != {} {
        var i := AnyOf(holders);
        assert i in Holders(pdm, name) && Target(st, e) in Holders(pdm, name) && i != Target(st, e);
      }
    }
  }

  /** No pod of this name is added while the name is tracked: what can be asked before each addition. */
  ghost predicate FreshFor(namespaces: seq<string>, st: State, events: seq<Event>, name: string)
    requires Inv(st) && Possible(namespaces, st, events)
    decreases |events|
  {
    events != [] ==>
      && (Adds(namespaces, st, events[0]) && TrackedName(events[0].pod) == name ==> name !in Tracked(st.pdm))
      && (HandleInv(namespaces, st, events[0]);
          FreshFor(namespaces, Handle(namespaces, st, events[0]).st, events[1..], name))
  }

  /** At no point of the stream is the name in two buckets. */
  ghost predicate NeverTwice(namespaces: seq<string>, st: State, events: seq<Event>, name: string)
    requires Inv(st) && Possible(namespaces, st, events)
    decreases |events|
  {
    && |Holders(st.pdm, name)| <= 1
    && (events != [] ==>
          (HandleInv(namespaces, st, events[0]);
           NeverTwice(namespaces, Handle(namespaces, st, events[0]).st, events[1..], name)))
  }

  lemma Fewer<T>(a: set<T>, b: set<T>)
    requires a <= b
    ensures |a| <= |b|
  {
    assert b == a + (b - a);
  }

  lemma KeptIsFewer(pdm: Index, pod: Pod, name: string)
    ensures |Kept(pdm, pod, name)| <= |Holders(pdm, name)|
  {
    Fewer(Kept(pdm, pod, name), Holders(pdm, name));
  }

  /** A name that is in one bucket at most stays so exactly if it is not added while it is tracked. */
  lemma OnceExactly(namespaces: seq<string>, st: State, e: Event, name: string)
    requires Inv(st) && OrderOk(st, e) && !Handle(namespaces, st, e).panicked && |Holders(st.pdm, name)| <= 1
    ensures |Holders(Handle(namespaces, st, e).st.pdm, name)| <= 1 <==>
      (Adds(namespaces, st, e) && TrackedName(e.pod) == name ==> name !in Tracked(st.pdm))
  {
    HoldersStep(namespaces, st, e, name);
    TrackedIsHeld(st.pdm, name);
    if e.PodSeen? { KeptIsFewer(st.pdm, e.pod, name); }
  }

  /** A name is never in two buckets exactly if no pod is added under it while it is tracked. */
  lemma {:induction false} FreshExactly(namespaces: seq<string>, st: State, events: seq<Event>, name: string)
    requires Inv(st) && Possible(namespaces, st, events) && |Holders(st.pdm, name)| <= 1
    ensures NeverTwice(namespaces, st, events, name) <==> FreshFor(namespaces, st, events, name)
    decreases |events|
  {
    if events == [] {
    } else {
      var e := events[0];
      HandleInv(namespaces, st, e);
      OnceExactly(namespaces, st, e, name);
      var t := Handle(namespaces, st, e).st;
      if |Holders(t.pdm, name)| <= 1 {
        FreshExactly(namespaces, t, events[1..], name);
      }
    }
  }

  // ----- CREATED and DELETED pod entries -----

  /** Some bucket loses a pod when this one is deleted. */
  predicate SomeLoses(pdm: Index, pod: Pod) {
    exists id <- pdm :: Loses(pdm[id], pod.name, pod.generateName)
  }

  /** Buckets that lose the name in a deletion, less the entry that is reported for it. */
  function Surplus(namespaces: seq<string>, st: State, e: Event, name: string): int {
    if !Relevant(namespaces, e, Deleted) then 0
    else
      |Holders(st.pdm, name)| - |Kept(st.pdm, e.pod, name)|
      - if name == e.pod.name && SomeLoses(st.pdm, e.pod) then 1 else 0
  }

  ghost function TotalSurplus(namespaces: seq<string>, st: State, events: seq<Event>, name: string): int
    requires Inv(st) && Possible(namespaces, st, events)
    decreases |events|
  {
    if events == [] then 0
    else
      HandleInv(namespaces, st, events[0]);
      Surplus(namespaces, st, events[0], name)
      + TotalSurplus(namespaces, Handle(namespaces, st, events[0]).st, events[1..], name)
  }

  /** What is reported for an added pod: the pod if it is new, after its microservice if that is new too. */
  lemma AddedReport(namespaces: seq<string>, st: State, e: Event)
    requires Inv(st) && OrderOk(st, e) && Relevant(namespaces, e, Added)
    ensures var pods := PodDelta(CREATED, CreatedRecord(e.pod, e.owner.value));
      var micro := MicroDelta(CREATED, MicroServiceData(e.pod, e.owner.value, st.nextId));
      Handle(namespaces, st, e).deltas ==
        if !Adds(namespaces, st, e) then []
        else if Target(st, e) in st.pdm then [pods]
        else [micro] + [pods]
  {
  }

  lemma AddedDeltas(namespaces: seq<string>, st: State, e: Event, name: string)
    requires Inv(st) && OrderOk(st, e) && Relevant(namespaces, e, Added)
    ensures Balance(Handle(namespaces, st, e).deltas, PodName(name)) ==
      if Adds(namespaces, st, e) && name == TrackedName(e.pod) then 1 else 0
  {
    AddedReport(namespaces, st, e);
    var pods := PodDelta(CREATED, CreatedRecord(e.pod, e.owner.value));
    var micro := MicroDelta(CREATED, MicroServiceData(e.pod, e.owner.value, st.nextId));
    NothingReported(PodName(name));
    ReportedOne(pods, CREATED, PodName(name));
    ReportedOne(pods, DELETED, PodName(name));
    ReportedTwo(micro, pods, CREATED, PodName(name));
    ReportedTwo(micro, pods, DELETED, PodName(name));
  }

  /** A removal is reported, under the name of the deleted pod, exactly if some bucket loses a pod. */
  lemma DeletedDeltas(namespaces: seq<string>, st: State, e: Event, name: string)
    requires Inv(st) && OrderOk(st, e) && Relevant(namespaces, e, Deleted) && !Handle(namespaces, st, e).panicked
    ensures Balance(Handle(namespaces, st, e).deltas, PodName(name)) ==
      if name == e.pod.name && SomeLoses(st.pdm, e.pod) then -1 else 0
  {
    RemovalIsOrderFree(st.pdm, e.order, e.pod.name, e.pod.generateName, e.gone);
    RemoveScanAnswer(st.pdm, e.order, e.pod.name, e.pod.generateName, e.gone);
    var r := RemoveScan(st.pdm, e.order, e.pod.name, e.pod.generateName, e.gone);
    assert r.podSpecId != -1 <==> SomeLoses(st.pdm, e.pod);
    RemovalBalance(e.pod, r.owner, r.podSpecId, r.removed, name);
    NothingReported(PodName(name));
  }

  lemma RemovalBalance(pod: Pod, owner: OwnerDet, podSpecId: int, removed: bool, name: string)
    ensures Balance(RemovalReport(pod, owner, podSpecId, removed), PodName(name)) == if name == pod.name then -1 else 0
  {
    var pods := PodDelta(DELETED, DeletedRecord(pod, owner));
    var micro := MicroDelta(DELETED, MicroServiceData(pod, owner, podSpecId));
    assert [pods] + [] == [pods];
    forall change: Change
      ensures Reported([pods], change, PodName(name)) == One(pods, change, PodName(name))
      ensures Reported([pods] + [micro], change, PodName(name)) == One(pods, change, PodName(name))
    {
      ReportedOne(pods, change, PodName(name));
      ReportedTwo(pods, micro, change, PodName(name));
    }
  }

  lemma BalanceStep(namespaces: seq<string>, st: State, e: Event, name: string)
    requires Inv(st) && OrderOk(st, e) && !Handle(namespaces, st, e).panicked
    ensures var out := Handle(namespaces, st, e);
      Balance(out.deltas, PodName(name)) ==
        |Holders(out.st.pdm, name)| - |Holders(st.pdm, name)| + Surplus(namespaces, st, e, name)
  {
    HoldersStep(namespaces, st, e, name);
    var deltas := Handle(namespaces, st, e).deltas;
    if Relevant(namespaces, e, Added) {
      AddedDeltas(namespaces, st, e, name);
    } else if Relevant(namespaces, e, Deleted) {
      DeletedDeltas(namespaces, st, e, name);
    } else if deltas != [] {
      assert deltas == [deltas[0]];
      ReportedOne(deltas[0], CREATED, PodName(name));
      ReportedOne(deltas[0], DELETED, PodName(name));
    } else {
      NothingReported(PodName(name));
    }
  }

  /** Over any stream, CREATED minus DELETED entries of a name is the change in the number of buckets that hold it
      plus the surplus of its deletions. */
  lemma {:induction false} PodBalance(namespaces: seq<string>, st: State, events: seq<Event>, name: string)
    requires Inv(st) && Possible(namespaces, st, events)
    ensures Balance(Emitted(namespaces, st, events), PodName(name)) ==
      |Holders(Run(namespaces, st, events).pdm, name)| - |Holders(st.pdm, name)|
      + TotalSurplus(namespaces, st, events, name)
    decreases |events|
  {
    if events == [] {
      NothingReported(PodName(name));
    } else {
      HandleInv(namespaces, st, events[0]);
      BalanceStep(namespaces, st, events[0], name);
      var out := Handle(namespaces, st, events[0]);
      var rest := Emitted(namespaces, out.st, events[1..]);
      PodBalance(namespaces, out.st, events[1..], name);
      BalanceConcat(out.deltas, rest, PodName(name));
      assert Emitted(namespaces, st, events) == out.deltas + rest;
    }
  }

  // ----- do the entries tell what is tracked -----

  function TrackedCount(pdm: Index, name: string): nat {
    if name in Tracked(pdm) then 1 else 0
  }

  /** The entries of the event tell what it does to the name: an addition finds it untracked; a deletion of the name
      that takes any pod loses the name everywhere; any other deletion leaves it somewhere. */
  ghost predicate Told(namespaces: seq<string>, st: State, e: Event, name: string)
    requires OrderOk(st, e)
  {
    && (Adds(namespaces, st, e) && TrackedName(e.pod) == name ==> name !in Tracked(st.pdm))
    && (Relevant(namespaces, e, Deleted) ==>
          if name == e.pod.name then
            SomeLoses(st.pdm, e.pod) ==> name in Tracked(st.pdm) && Kept(st.pdm, e.pod, name) == {}
          else name in Tracked(st.pdm) ==> Kept(st.pdm, e.pod, name) != {})
  }

  lemma HolderLoses(pdm: Index, pod: Pod, name: string)
    requires name == pod.name && name in Tracked(pdm)
    ensures SomeLoses(pdm, pod)
  {
    TrackedIsHeld(pdm, name);
    var holders := Holders(pdm, name);
    var id := AnyOf(holders);
    assert Loses(pdm[id], pod.name, pod.generateName);
  }

  lemma ToldExactly(namespaces: seq<string>, st: State, e: Event, name: string)
    requires Inv(st) && OrderOk(st, e) && !Handle(namespaces, st, e).panicked
    ensures var out := Handle(namespaces, st, e);
      Balance(out.deltas, PodName(name)) == TrackedCount(out.st.pdm, name) - TrackedCount(st.pdm, name) <==>
        Told(namespaces, st, e, name)
  {
    var out := Handle(namespaces, st, e);
    HoldersStep(namespaces, st, e, name);
    TrackedIsHeld(st.pdm, name);
    TrackedIsHeld(out.st.pdm, name);
    if Relevant(namespaces, e, Added) {
      AddedDeltas(namespaces, st, e, name);
    } else if Relevant(namespaces, e, Deleted) {
      DeletedDeltas(namespaces, st, e, name);
      if name == e.pod.name && name in Tracked(st.pdm) { HolderLoses(st.pdm, e.pod, name); }
    } else {
      BalanceStep(namespaces, st, e, name);
    }
  }

  /** At every point of the stream, the balance of the entries so far, which starts with `balance`, is one if the
      name is tracked and zero if not. */
  ghost predicate BalanceTells(namespaces: seq<string>, st: State, events: seq<Event>, name: string, balance: int)
    requires Inv(st) && Possible(namespaces, st, events)
    decreases |events|
  {
    && balance == TrackedCount(st.pdm, name)
    && (events != [] ==>
          (HandleInv(namespaces, st, events[0]);
           BalanceTells(namespaces, Handle(namespaces, st, events[0]).st, events[1..], name,
                        balance + Balance(Handle(namespaces, st, events[0]).deltas, PodName(name)))))
  }

  ghost predicate AllTold(namespaces: seq<string>, st: State, events: seq<Event>, name: string)
    requires Inv(st) && Possible(namespaces, st, events)
    decreases |events|
  {
    events != [] ==>
      && Told(namespaces, st, events[0], name)
      && (HandleInv(namespaces, st, events[0]);
          AllTold(namespaces, Handle(namespaces, st, events[0]).st, events[1..], name))
  }

  /** At every point of a stream the balance of a name tells whether it is tracked, if and only if the entries of
      every event tell what it does to the name. */
  lemma {:induction false} BalanceIsTrackingExactly(
      namespaces: seq<string>, st: State, events: seq<Event>, name: string)
    requires Inv(st) && Possible(namespaces, st, events)
    ensures BalanceTells(namespaces, st, events, name, TrackedCount(st.pdm, name)) <==>
      AllTold(namespaces, st, events, name)
    decreases |events|
  {
    if events == [] {
    } else {
      HandleInv(namespaces, st, events[0]);
      ToldExactly(namespaces, st, events[0], name);
      var out := Handle(namespaces, st, events[0]);
      var balance := TrackedCount(st.pdm, name) + Balance(out.deltas, PodName(name));
      if balance == TrackedCount(out.st.pdm, name) {
        BalanceIsTrackingExactly(namespaces, out.st, events[1..], name);
      }
    }
  }

  /** So at the end of such a stream, CREATED minus DELETED entries tell whether the name is tracked. */
  lemma {:induction false} PodBalanceIsTracking(namespaces: seq<string>, st: State, events: seq<Event>, name: string)
    requires Inv(st) && Possible(namespaces, st, events) && AllTold(namespaces, st, events, name)
    ensures TrackedCount(st.pdm, name) + Balance(Emitted(namespaces, st, events), PodName(name)) ==
      TrackedCount(Run(namespaces, st, events).pdm, name)
    decreases |events|
  {
    if events == [] {
      NothingReported(PodName(name));
    } else {
      HandleInv(namespaces, st, events[0]);
      ToldExactly(namespaces, st, events[0], name);
      var out := Handle(namespaces, st, events[0]);
      var rest := Emitted(namespaces, out.st, events[1..]);
      PodBalanceIsTracking(namespaces, out.st, events[1..], name);
      BalanceConcat(out.deltas, rest, PodName(name));
      assert Emitted(namespaces, st, events) == out.deltas + rest;
    }
  }

  /** Without a clash on generated names, what remains of the condition is that no pod is added under a name that
      is tracked. */
  lemma ToldWithoutClash(namespaces: seq<string>, st: State, e: Event, name: string)
    requires Inv(st) && OrderOk(st, e) && NoClashIn(namespaces, st, e)
    ensures Told(namespaces, st, e, name) <==>
      (Adds(namespaces, st, e) && TrackedName(e.pod) == name ==> name !in Tracked(st.pdm))
  {
    if Relevant(namespaces, e, Deleted) {
      KeptWithoutClash(st.pdm, e.pod, name);
      TrackedIsHeld(st.pdm, name);
      if SomeLoses(st.pdm, e.pod) {
        var id :| id in st.pdm && Loses(st.pdm[id], e.pod.name, e.pod.generateName);
        assert !Holds(st.pdm[id], e.pod.generateName);
        assert id in Holders(st.pdm, e.pod.name);
      }
    }
  }
}

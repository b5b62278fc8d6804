/** Exactly which running images are notified: what the collector remembers of one owner, replayed on its own, over
    runs of list operations and over whole streams of watch events. */
module Notifications {
  import opened Types
  import opened Candidates
  import S = PodStatus
  import W = PodWatch
  import H = PodHistory
  import B = PodBalance
  import T = Turns
  import CandidateCounts

  // ----- one owner on its own -----

  /** What is remembered of an owner: nothing, or its number of pods and the images last shown. */
  datatype Memory = Unlisted | Listing(count: int, images: seq<string>)

  /** There are more images than before, or one differs from what was at its position. */
  predicate IsNews(images: seq<string>, remembered: seq<string>) {
    || |images| > |remembered|
    || exists i :: 0 <= i < |images| && i < |remembered| && images[i] != remembered[i]
  }

  /** The operation shows a running pod whose images are news. */
  predicate Fires(m: Memory, op: Op, k: Key) {
    && op.CheckOp? && op.key == k && op.podStatus == "Running"
    && m.Listing? && IsNews(ImageIDs(op.pod.containers), m.images)
  }

  function After(m: Memory, op: Op, k: Key): Memory {
    if op.key != k then m
    else
      match op
      case AddOp(_, pod) =>
        if m.Unlisted? then Listing(1, ImageIDs(pod.containers)) else m.(count := m.count + 1)
      case RemoveOp(_) =>
        if m.Unlisted? || m.count == 1 then Unlisted else m.(count := m.count - 1)
      case CheckOp(_, pod, _) =>
        if Fires(m, op, k) then m.(images := ImageIDs(pod.containers)) else m
  }

  /** The images to notify, in order. */
  function Due(m: Memory, ops: seq<Op>, k: Key): seq<seq<string>>
    decreases |ops|
  {
    if ops == [] then []
    else
      (if Fires(m, ops[0], k) then [ImageIDs(ops[0].pod.containers)] else [])
      + Due(After(m, ops[0], k), ops[1..], k)
  }

  // ----- the list of candidates is one such memory for each owner -----

  function MemoryOf(v: seq<Candidate>, k: Key): Memory {
    var i := Find(v, k);
    if i < |v| then Listing(v[i].podsNumber, ImageIDs(v[i].pod.containers)) else Unlisted
  }

  lemma PrefixIsNoNews(images: seq<string>, remembered: seq<string>)
    ensures images <= remembered <==> !IsNews(images, remembered)
  {
    if !IsNews(images, remembered) {
      assert forall i :: 0 <= i < |images| ==> images[i] == remembered[i];
    }
  }

  lemma NotifiesFires(v: seq<Candidate>, op: Op, k: Key)
    requires op.CheckOp? && op.key == k
    ensures Notifies(v, k, op.pod, op.podStatus) <==> Fires(MemoryOf(v, k), op, k)
  {
    var i := Find(v, k);
    if i < |v| {
      PrefixIsNoNews(ImageIDs(op.pod.containers), ImageIDs(v[i].pod.containers));
    }
  }

  lemma DetachedAfter(v: seq<Candidate>, op: Op, k: Key)
    requires Sound(v) && op.Proper() && Find(v, k) < |v| && Detaches(v, op)
    ensures MemoryOf(Apply(v, op), k) == After(MemoryOf(v, k), op, k)
  {
    FindAfterDetach(v, op, k);
  }

  lemma UpdatedAfter(v: seq<Candidate>, op: Op, k: Key)
    requires Sound(v) && op.Proper() && Find(v, k) < |v| && !Detaches(v, op)
    ensures MemoryOf(Apply(v, op), k) == After(MemoryOf(v, k), op, k)
  {
    FindAfterUpdate(v, op, k);
    if op.key == k {
      match op
      case AddOp(_, _) =>
      case RemoveOp(_) =>
      case CheckOp(_, _, _) => NotifiesFires(v, op, k);
    }
  }

  lemma UnlistedAfter(v: seq<Candidate>, op: Op, k: Key)
    requires Sound(v) && op.Proper() && Find(v, k) == |v|
    ensures MemoryOf(Apply(v, op), k) == After(MemoryOf(v, k), op, k)
  {
    var w := Apply(v, op);
    if op.AddOp? && op.key == k {
      ApplySound(v, op);
      FindIs(w, k, |v|);
    } else {
      assert forall j :: 0 <= j < |w| ==> w[j].key != k;
    }
  }

  /** One operation does to what is remembered of every owner what it does to that owner alone. */
  lemma MemoryStep(v: seq<Candidate>, op: Op, k: Key)
    requires Sound(v) && op.Proper()
    ensures MemoryOf(Apply(v, op), k) == After(MemoryOf(v, k), op, k)
  {
    if Find(v, k) == |v| {
      UnlistedAfter(v, op, k);
    } else if Detaches(v, op) {
      DetachedAfter(v, op, k);
    } else {
      UpdatedAfter(v, op, k);
    }
  }

  /** Over any operations, an owner's images are notified exactly when they are due: when a running pod of a listed
      owner shows more images than remembered, or another one at some position. */
  lemma {:induction false} NotifiedExactlyWhenDue(v: seq<Candidate>, ops: seq<Op>, k: Key)
    requires Sound(v) && forall op <- ops :: op.Proper()
    ensures Notified(v, ops, k) == Due(MemoryOf(v, k), ops, k)
    decreases |ops|
  {
    if ops != [] {
      ApplySound(v, ops[0]);
      MemoryStep(v, ops[0], k);
      if ops[0].CheckOp? && ops[0].key == k {
        NotifiesFires(v, ops[0], k);
      }
      NotifiedExactlyWhenDue(Apply(v, ops[0]), ops[1..], k);
    }
  }

  // ----- whole turns -----

  /** A turn triggers a scan exactly if it is a modified event of a running pod in a watched namespace, with a known
      owner that is a candidate, and the pod's images are news to it. */
  lemma TurnNotifiesExactly(namespaces: seq<string>, w: T.World, e: W.Event, collectorCreationTime: Time)
    requires W.Inv(w.tracking.index) && W.OrderOk(w.tracking.index, e) && Sound(w.candidates)
    ensures T.PodTurn(namespaces, w, e, collectorCreationTime).notify <==>
      && e.PodSeen? && e.typ == W.Modified && W.Watched(namespaces, e.pod.namespace) && e.owner.Some?
      && S.StatusOf(e.pod) == "Running"
      && (exists c <- w.candidates ::
            && c.key == Key(e.pod.namespace, e.owner.value.name, e.owner.value.kind)
            && IsNews(ImageIDs(e.pod.containers), ImageIDs(c.pod.containers)))
  {
    if T.HasOwner(namespaces, e) {
      var k := Key(e.pod.namespace, e.owner.value.name, e.owner.value.kind);
      NotifiesFires(w.candidates, CheckOp(k, e.pod, S.StatusOf(e.pod)), k);
      forall i | 0 <= i < |w.candidates| && w.candidates[i].key == k ensures i == Find(w.candidates, k) {
        FindIs(w.candidates, k, i);
      }
    }
  }

  /** What an event is to the candidates: a pod newer than the collector that becomes tracked is added, a modified
      one is checked, a deleted one is removed. */
  function OpsOf(namespaces: seq<string>, st: W.State, e: W.Event, collectorCreationTime: Time): seq<Op>
    requires W.OrderOk(st, e)
  {
    if H.Relevant(namespaces, e, W.Modified) then
      [CheckOp(Key(e.pod.namespace, e.owner.value.name, e.owner.value.kind), e.pod, S.StatusOf(e.pod))]
    else if H.Relevant(namespaces, e, W.Deleted) then
      [RemoveOp(Key(e.pod.namespace, e.owner.value.name, e.owner.value.kind))]
    else if H.Adds(namespaces, st, e) && e.pod.created > collectorCreationTime then
      [AddOp(Key(e.pod.namespace, e.owner.value.name, e.owner.value.kind), e.pod)]
    else []
  }

  ghost function AllOps(namespaces: seq<string>, st: W.State, events: seq<W.Event>, collectorCreationTime: Time)
      : seq<Op>
    requires W.Inv(st) && H.Possible(namespaces, st, events)
    decreases |events|
  {
    if events == [] then []
    else
      W.HandleInv(namespaces, st, events[0]);
      OpsOf(namespaces, st, events[0], collectorCreationTime)
      + AllOps(namespaces, W.Handle(namespaces, st, events[0]).st, events[1..], collectorCreationTime)
  }

  /** The images of the turns that trigger a scan for an owner, in order. */
  ghost function Triggered(
      namespaces: seq<string>, w: T.World, events: seq<W.Event>, k: Key, collectorCreationTime: Time)
      : seq<seq<string>>
    requires W.Inv(w.tracking.index) && H.Possible(namespaces, w.tracking.index, events)
    decreases |events|
  {
    if events == [] then []
    else
      var e := events[0];
      CandidateCounts.NextTurn(namespaces, w, e, collectorCreationTime);
      var turn := T.PodTurn(namespaces, w, e, collectorCreationTime);
      (if turn.notify && e.PodSeen? && e.owner.Some? && k == KeyOf(e.owner.value, e.pod)
       then [ImageIDs(e.pod.containers)] else [])
      + Triggered(namespaces, turn.world, events[1..], k, collectorCreationTime)
  }

  lemma TurnStep(namespaces: seq<string>, w: T.World, e: W.Event, k: Key, collectorCreationTime: Time)
    requires W.Inv(w.tracking.index) && W.OrderOk(w.tracking.index, e) && Sound(w.candidates)
    ensures var ops := OpsOf(namespaces, w.tracking.index, e, collectorCreationTime);
      var turn := T.PodTurn(namespaces, w, e, collectorCreationTime);
      && |ops| <= 1
      && turn.world.candidates == (if ops == [] then w.candidates else Apply(w.candidates, ops[0]))
      && (ops != [] ==> ops[0].Proper())
      && (turn.notify <==> ops != [] && ops[0].CheckOp?
                           && Notifies(w.candidates, ops[0].key, ops[0].pod, ops[0].podStatus))
  {
    if H.Relevant(namespaces, e, W.Added) {
      B.AddedReport(namespaces, w.tracking.index, e);
    }
  }

  lemma DueOneMore(m: Memory, op: Op, ops: seq<Op>, k: Key)
    ensures Due(m, [op] + ops, k) ==
      (if Fires(m, op, k) then [ImageIDs(op.pod.containers)] else []) + Due(After(m, op, k), ops, k)
  {
    assert ([op] + ops)[1..] == ops;
  }

  /** Over any stream of events, the scans triggered for an owner are exactly those due. */
  lemma {:induction false} TriggeredExactlyWhenDue(
      namespaces: seq<string>, w: T.World, events: seq<W.Event>, k: Key, collectorCreationTime: Time)
    requires W.Inv(w.tracking.index) && H.Possible(namespaces, w.tracking.index, events) && Sound(w.candidates)
    ensures Triggered(namespaces, w, events, k, collectorCreationTime) ==
      Due(MemoryOf(w.candidates, k), AllOps(namespaces, w.tracking.index, events, collectorCreationTime), k)
    decreases |events|
  {
    if events != [] {
      var e := events[0];
      CandidateCounts.NextTurn(namespaces, w, e, collectorCreationTime);
      TurnStep(namespaces, w, e, k, collectorCreationTime);
      var turn := T.PodTurn(namespaces, w, e, collectorCreationTime);
      var ops := OpsOf(namespaces, w.tracking.index, e, collectorCreationTime);
      var rest := AllOps(namespaces, turn.world.tracking.index, events[1..], collectorCreationTime);
      if ops == [] {
        assert ops + rest == rest;
      } else {
        ApplySound(w.candidates, ops[0]);
        MemoryStep(w.candidates, ops[0], k);
        if ops[0].CheckOp? && ops[0].key == k {
          NotifiesFires(w.candidates, ops[0], k);
        }
        assert ops == [ops[0]];
        DueOneMore(MemoryOf(w.candidates, k), ops[0], rest, k);
      }
      TriggeredExactlyWhenDue(namespaces, turn.world, events[1..], k, collectorCreationTime);
    }
  }
}

/** What `RemovePod` answers, and when the microservice it says was removed is the one whose bucket left the index.
    No pod name is taken to be unique, and the generated name may be that of another pod. */
module PodRemoval {
  import opened Types
  import opened PodIndex
  import ResourceMap

  /** The bucket loses a pod. */
  predicate Loses(b: Bucket, name: string, generateName: string) {
    FirstRecord(b, name, generateName) < |b|
  }

  /** The bucket loses its last pod and its owner no longer exists: it leaves the index. */
  predicate Leaves(b: Bucket, name: string, generateName: string, gone: Gone) {
    var j := FirstRecord(b, name, generateName);
    j < |b| && Drops(b, j, gone)
  }

  /** The bucket loses its last pod through a match on the name itself: only then is it noted whether the
      microservice was removed. */
  predicate Notes(b: Bucket, name: string, generateName: string) {
    var j := FirstRecord(b, name, generateName);
    j < |b| && |b| <= 2 && b[j].record.podName == name
  }

  lemma VisitTakes(acc: Removal, id: int, name: string, generateName: string, gone: Gone)
    requires id in acc.pdm && BucketShape(id, acc.pdm[id])
    requires !acc.panicked && !PanicsOn(acc.pdm[id], name, generateName, gone)
    ensures var b, r := acc.pdm[id], Visit(acc, id, name, generateName, gone);
      if !Loses(b, name, generateName) then r == acc
      else
        && !r.panicked && r.podSpecId == id && r.owner == b[0].service.owner
        && (id !in r.pdm <==> Leaves(b, name, generateName, gone))
        && (Leaves(b, name, generateName, gone) ==> Notes(b, name, generateName))
        && r.removed == if Notes(b, name, generateName) then Leaves(b, name, generateName, gone) else acc.removed
  {
  }

  /** The answer when no bucket makes the scan panic: the last visited bucket that loses a pod, with its owner, or
      -1 if none does. What is answered about the removal is right if that bucket leaves, and also if it is
      noted there; otherwise it comes from an earlier bucket. */
  lemma {:induction false} RemoveScanAnswer(
      pdm: Index, order: seq<int>, name: string, generateName: string, gone: Gone)
    requires Shape(pdm) && IsPartialOrder(order, pdm) && -1 !in pdm && CannotPanic(pdm, name, generateName, gone)
    ensures var r := RemoveScan(pdm, order, name, generateName, gone);
      && !r.panicked
      && (r.podSpecId == -1 <==> forall id <- order :: !Loses(pdm[id], name, generateName))
      && (r.podSpecId != -1 ==>
            && r.podSpecId in order && Loses(pdm[r.podSpecId], name, generateName)
            && r.owner == pdm[r.podSpecId][0].service.owner
            && (r.podSpecId !in r.pdm <==> Leaves(pdm[r.podSpecId], name, generateName, gone))
            && (Leaves(pdm[r.podSpecId], name, generateName, gone) ==> r.removed)
            && (Notes(pdm[r.podSpecId], name, generateName) && r.removed ==> r.podSpecId !in r.pdm))
      && (r.removed ==> r.podSpecId != -1 && exists id <- order :: Leaves(pdm[id], name, generateName, gone))
    decreases |order|
  {
    if order == [] {
    } else {
      var n := |order| - 1;
      IdsOneMore(order, pdm);
      assert order == order[..n] + [order[n]];
      RemoveScanAnswer(pdm, order[..n], name, generateName, gone);
      var acc := RemoveScan(pdm, order[..n], name, generateName, gone);
      assert acc.pdm[order[n]] == pdm[order[n]] && BucketShape(order[n], pdm[order[n]]);
      VisitTakes(acc, order[n], name, generateName, gone);
    }
  }

  /** The last bucket of the order, if it loses a pod, is the one answered; what was answered about the removal
      before stays if it is not noted there. */
  lemma LastAnswers(pdm: Index, order: seq<int>, name: string, generateName: string, gone: Gone)
    requires Shape(pdm) && IsPartialOrder(order, pdm) && -1 !in pdm && CannotPanic(pdm, name, generateName, gone)
    requires order != [] && Loses(pdm[order[|order| - 1]], name, generateName)
    ensures IsPartialOrder(order[..|order| - 1], pdm)
    ensures var r, last := RemoveScan(pdm, order, name, generateName, gone), order[|order| - 1];
      && r.podSpecId == last
      && r.removed == if Notes(pdm[last], name, generateName) then Leaves(pdm[last], name, generateName, gone)
                      else RemoveScan(pdm, order[..|order| - 1], name, generateName, gone).removed
  {
    var n := |order| - 1;
    IdsOneMore(order, pdm);
    RemoveScanAnswer(pdm, order[..n], name, generateName, gone);
    var acc := RemoveScan(pdm, order[..n], name, generateName, gone);
    assert acc.pdm[order[n]] == pdm[order[n]];
    VisitTakes(acc, order[n], name, generateName, gone);
  }

  lemma OrderEndingIn(pdm: Index, i: int, j: int) returns (order: seq<int>)
    requires i in pdm && j in pdm && i != j
    ensures IsOrder(order, pdm) && |order| >= 2 && order[|order| - 2] == i && order[|order| - 1] == j
  {
    var first := ResourceMap.AnyOrder(pdm.Keys - {i, j});
    order := first + [i, j];
    assert forall k :: 0 <= k < |first| ==> first[k] in first;
    forall id <- pdm
      ensures id in order
    {
      assert id in first || id == i || id == j;
    }
  }

  // ----- is the reported microservice one that left -----

  /** A microservice is reported deleted only if its bucket left the index. */
  predicate NamesWhatLeft(r: Removal) {
    r.removed ==> r.podSpecId !in r.pdm
  }

  /** With a bucket that leaves visited next to last, and last one that loses a pod without anything noted, the
      removal of the last one is reported, which stays. */
  lemma WrongServiceReported(pdm: Index, order: seq<int>, name: string, generateName: string, gone: Gone)
    requires Shape(pdm) && IsPartialOrder(order, pdm) && -1 !in pdm && CannotPanic(pdm, name, generateName, gone)
    requires |order| >= 2 && Leaves(pdm[order[|order| - 2]], name, generateName, gone)
    requires var b := pdm[order[|order| - 1]]; Loses(b, name, generateName) && !Notes(b, name, generateName)
    ensures var r := RemoveScan(pdm, order, name, generateName, gone);
      r.removed && r.podSpecId == order[|order| - 1] && r.podSpecId in r.pdm
  {
    var n := |order| - 1;
    LastAnswers(pdm, order, name, generateName, gone);
    LeavingIsNoted(order[n - 1], pdm[order[n - 1]], name, generateName, gone);
    LeavingIsNoted(order[n], pdm[order[n]], name, generateName, gone);
    assert order[..n][n - 1] == order[n - 1];
    LastAnswers(pdm, order[..n], name, generateName, gone);
    RemoveScanAnswer(pdm, order, name, generateName, gone);
  }

  lemma LeavingIsNoted(id: int, b: Bucket, name: string, generateName: string, gone: Gone)
    requires BucketShape(id, b) && !PanicsOn(b, name, generateName, gone)
    ensures Leaves(b, name, generateName, gone) ==> Notes(b, name, generateName)
  {
  }

  /** A bucket leaves, and another loses a pod without anything noted: it has more pods, or the match was on the
      generated name. */
  ghost predicate Confused(pdm: Index, name: string, generateName: string, gone: Gone) {
    exists i <- pdm, j <- pdm ::
      && Leaves(pdm[i], name, generateName, gone)
      && Loses(pdm[j], name, generateName) && !Notes(pdm[j], name, generateName)
  }

  /** Of a removal that cannot panic: under every visiting order the microservice reported deleted, if any, is one
      whose bucket left the index, exactly if the index is not confused about the names. */
  lemma ReportedServiceLeftExactly(pdm: Index, name: string, generateName: string, gone: Gone)
    requires Shape(pdm) && -1 !in pdm && CannotPanic(pdm, name, generateName, gone)
    ensures
      (forall order: seq<int> :: IsOrder(order, pdm) ==>
         NamesWhatLeft(RemoveScan(pdm, order, name, generateName, gone)))
      <==> !Confused(pdm, name, generateName, gone)
  {
    if Confused(pdm, name, generateName, gone) {
      var i, j :| i in pdm && j in pdm && Leaves(pdm[i], name, generateName, gone)
        && Loses(pdm[j], name, generateName) && !Notes(pdm[j], name, generateName);
      LeavingIsNoted(i, pdm[i], name, generateName, gone);
      var order := OrderEndingIn(pdm, i, j);
      WrongServiceReported(pdm, order, name, generateName, gone);
      assert !NamesWhatLeft(RemoveScan(pdm, order, name, generateName, gone));
    } else {
      forall order: seq<int> | IsOrder(order, pdm)
        ensures NamesWhatLeft(RemoveScan(pdm, order, name, generateName, gone))
      {
        RemoveScanAnswer(pdm, order, name, generateName, gone);
      }
    }
  }

  // ----- are exactly the microservices that left reported -----

  /** The microservice `id` is the one reported deleted. */
  predicate Reports(r: Removal, id: int) {
    r.removed && r.podSpecId == id
  }

  /** Exactly the microservices whose buckets left are reported. */
  ghost predicate ReportsExactly(pdm: Index, r: Removal) {
    forall id: int :: Reports(r, id) <==> id in pdm && id !in r.pdm
  }

  /** When a bucket leaves, no other bucket loses a pod. */
  ghost predicate LeavesAlone(pdm: Index, name: string, generateName: string, gone: Gone) {
    forall i <- pdm, j <- pdm ::
      Leaves(pdm[i], name, generateName, gone) && Loses(pdm[j], name, generateName) ==> i == j
  }

  lemma LeftExactly(pdm: Index, order: seq<int>, name: string, generateName: string, gone: Gone, id: int)
    requires Shape(pdm) && IsOrder(order, pdm) && CannotPanic(pdm, name, generateName, gone)
    ensures var r := RemoveScan(pdm, order, name, generateName, gone);
      id in pdm && id !in r.pdm <==> id in pdm && Leaves(pdm[id], name, generateName, gone)
  {
    RemovalIsOrderFree(pdm, order, name, generateName, gone);
  }

  lemma AloneIsReported(pdm: Index, order: seq<int>, name: string, generateName: string, gone: Gone, id: int)
    requires Shape(pdm) && IsOrder(order, pdm) && -1 !in pdm && CannotPanic(pdm, name, generateName, gone)
    requires LeavesAlone(pdm, name, generateName, gone)
    ensures var r := RemoveScan(pdm, order, name, generateName, gone); Reports(r, id) <==> id in pdm && id !in r.pdm
  {
    RemoveScanAnswer(pdm, order, name, generateName, gone);
    LeftExactly(pdm, order, name, generateName, gone, id);
  }

  /** Of a removal that cannot panic: under every visiting order exactly the microservices whose buckets left are
      reported deleted, if and only if no bucket leaves while another loses a pod. */
  lemma ServicesReportedExactly(pdm: Index, name: string, generateName: string, gone: Gone)
    requires Shape(pdm) && -1 !in pdm && CannotPanic(pdm, name, generateName, gone)
    ensures
      (forall order: seq<int> :: IsOrder(order, pdm) ==>
         ReportsExactly(pdm, RemoveScan(pdm, order, name, generateName, gone)))
      <==> LeavesAlone(pdm, name, generateName, gone)
  {
    if LeavesAlone(pdm, name, generateName, gone) {
      forall order: seq<int>, id: int | IsOrder(order, pdm)
        ensures var r := RemoveScan(pdm, order, name, generateName, gone);
          Reports(r, id) <==> id in pdm && id !in r.pdm
      {
        AloneIsReported(pdm, order, name, generateName, gone, id);
      }
    } else {
      var i, j :| i in pdm && j in pdm && i != j
        && Leaves(pdm[i], name, generateName, gone) && Loses(pdm[j], name, generateName);
      var order := OrderEndingIn(pdm, i, j);
      LastAnswers(pdm, order, name, generateName, gone);
      LeftExactly(pdm, order, name, generateName, gone, i);
      var r := RemoveScan(pdm, order, name, generateName, gone);
      assert !Reports(r, i) && i !in r.pdm;
    }
  }
}

/** The pod index: a map from spec id to a list whose first element, when there is one, describes a
    microservice and whose other elements are its pods. This module gives the index as a value and the scans
    over it.

    A scan over the map takes an `order`: the order in which the runtime happens to visit the keys. */
module PodIndex {
  import opened Types

  datatype Element = Header(service: MicroServiceData) | Record(record: PodRecord)

  type Bucket = seq<Element>

  type Index = map<int, Bucket>

  predicate IsPartialOrder(order: seq<int>, pdm: Index) {
    && (forall i, j :: 0 <= i < j < |order| ==> order[i] != order[j])
    && (forall i :: 0 <= i < |order| ==> order[i] in pdm)
  }

  /** One of the orders in which a loop may visit the keys. */
  predicate IsOrder(order: seq<int>, pdm: Index) {
    IsPartialOrder(order, pdm) && forall id <- pdm :: id in order
  }

  // ----- shape -----

  /** Empty, or a header that carries the bucket's id followed by records with different names. */
  ghost predicate BucketShape(id: int, b: Bucket) {
    b != [] ==>
      && b[0].Header? && b[0].service.podSpecId == id
      && (forall i :: 1 <= i < |b| ==> b[i].Record?)
      && (forall i, j :: 1 <= i < j < |b| ==> b[i].record.podName != b[j].record.podName)
  }

  ghost predicate Shape(pdm: Index) {
    forall id <- pdm :: BucketShape(id, pdm[id])
  }

  /** What identifies a microservice: its namespace and the spec of its owner. */
  datatype Key = Key(namespace: string, spec: PodSpec)

  function KeyOf(service: MicroServiceData): Key {
    Key(service.pod.namespace, ExtractPodSpecFromOwner(service.owner.data))
  }

  /** The bucket has at least one pod, and describes the microservice `key`. */
  predicate Matches(b: Bucket, key: Key) {
    |b| >= 2 && b[0].Header? && KeyOf(b[0].service) == key
  }

  /** No two buckets with pods describe the same microservice. */
  ghost predicate DistinctKeys(pdm: Index) {
    forall i <- pdm, j <- pdm, key: Key :: Matches(pdm[i], key) && Matches(pdm[j], key) ==> i == j
  }

  predicate Holds(b: Bucket, name: string) {
    exists i :: 0 <= i < |b| && b[i].Record? && b[i].record.podName == name
  }

  /** The buckets that hold a pod of this name. */
  function Holders(pdm: Index, name: string): set<int> {
    set id | id in pdm && Holds(pdm[id], name)
  }

  // ----- the scans -----

  /** `isPodSpecAlreadyExist`: the first bucket with pods, in visiting order, that has this key. */
  function FindSpec(pdm: Index, order: seq<int>, key: Key): (found: Option<int>)
    requires IsPartialOrder(order, pdm)
    ensures found.Some? ==> found.value in pdm && found.value in order && Matches(pdm[found.value], key)
    ensures found.None? ==> forall id <- order :: !Matches(pdm[id], key)
  {
    if order == [] then None
    else if Matches(pdm[order[0]], key) then Some(order[0])
    else FindSpec(pdm, order[1..], key)
  }

  /** Whatever the visiting order, the scan finds the one bucket with pods that has the key, if there is one:
      it looks the key up in a map. */
  lemma FindSpecIsLookup(pdm: Index, order: seq<int>, key: Key, id: int)
    requires DistinctKeys(pdm) && IsOrder(order, pdm)
    ensures FindSpec(pdm, order, key) == Some(id) <==> id in pdm && Matches(pdm[id], key)
  {
  }

  /** `GetAncestorFromLocalPodsList`: the owner in the first visited bucket that holds the pod. */
  function FindOwner(pdm: Index, order: seq<int>, name: string): (owner: Option<OwnerDet>)
    requires IsPartialOrder(order, pdm) && Shape(pdm)
  {
    if order == [] then None
    else if Holds(pdm[order[0]], name) then
      assert BucketShape(order[0], pdm[order[0]]);
      Some(pdm[order[0]][0].service.owner)
    else FindOwner(pdm, order[1..], name)
  }

  /** When only one bucket holds the name, its owner is found whatever the visiting order. */
  lemma {:induction false} FindOwnerIsLookup(pdm: Index, order: seq<int>, name: string, id: int)
    requires Shape(pdm) && IsPartialOrder(order, pdm) && Holders(pdm, name) == {id}
    ensures FindOwner(pdm, order, name) == if id in order then Some(pdm[id][0].service.owner) else None
  {
    if order == [] {
    } else {
      assert order[0] in Holders(pdm, name) <==> Holds(pdm[order[0]], name);
      FindOwnerIsLookup(pdm, order[1..], name, id);
    }
  }

  /** `updatePod`: the record of this name in the last visited bucket that holds one. */
  function FindRecord(pdm: Index, order: seq<int>, name: string): (found: Option<PodRecord>)
    requires IsPartialOrder(order, pdm)
    ensures found.Some? <==> exists i :: 0 <= i < |order| && Holds(pdm[order[i]], name)
    decreases |order|
  {
    if order == [] then None
    else
      var n := |order| - 1;
      var b := pdm[order[n]];
      var j := FirstRecord(b, name, name);
      assert Holds(b, name) <==> j < |b|;
      if j < |b| then Some(b[j].record)
      else
        var rest := FindRecord(pdm, order[..n], name);
        assert forall i :: 0 <= i < n ==> order[..n][i] == order[i];
        rest
  }

  /** When only one bucket holds the name, its record of that name is found whatever the visiting order. */
  lemma {:induction false} FindRecordIsLookup(pdm: Index, order: seq<int>, name: string, id: int)
    requires Shape(pdm) && IsPartialOrder(order, pdm) && Holders(pdm, name) == {id}
    ensures var found := FindRecord(pdm, order, name);
      if id in order then found.Some? && found.value.podName == name && Record(found.value) in pdm[id]
      else found.None?
    decreases |order|
  {
    if order == [] {
    } else {
      var n := |order| - 1;
      assert order[n] in Holders(pdm, name) <==> Holds(pdm[order[n]], name);
      assert order == order[..n] + [order[n]];
      FindRecordIsLookup(pdm, order[..n], name, id);
    }
  }

  /** Where the bucket holds a record with one of the two names; past the end when it holds none. */
  function FirstRecord(b: Bucket, name: string, generateName: string): (j: nat)
    ensures j <= |b|
    ensures j < |b| ==> b[j].Record? && (b[j].record.podName == name || b[j].record.podName == generateName)
    ensures forall i :: 0 <= i < j && b[i].Record? ==>
      b[i].record.podName != name && b[i].record.podName != generateName
  {
    if b == [] || (b[0].Record? && (b[0].record.podName == name || b[0].record.podName == generateName)) then 0
    else FirstRecord(b[1..], name, generateName) + 1
  }

  // ----- removal -----

  /** The owners the API server no longer knows, with their namespace. */
  type Gone = set<(OwnerDet, string)>

  predicate IsGone(service: MicroServiceData, gone: Gone) {
    (service.owner, service.pod.namespace) in gone
  }

  const NO_OWNER := OwnerDet("", "", NoData)

  /** What `RemovePod` has done so far. `panicked`: it dereferenced the front of an emptied list. */
  datatype Removal = Removal(pdm: Index, podSpecId: int, removed: bool, owner: OwnerDet, panicked: bool)

  function Without(b: Bucket, j: nat): Bucket
    requires j < |b|
  {
    b[..j] + b[j + 1..]
  }

  /** The pod removed is the last one of its microservice, and the owner no longer exists. */
  predicate Drops(b: Bucket, j: nat, gone: Gone)
    requires j < |b|
  {
    |b| <= 2 && b[0].Header? && IsGone(b[0].service, gone)
  }

  /** The scan of one bucket. It ends at the first removal, because a removed element has no next one. */
  function Visit(acc: Removal, id: int, name: string, generateName: string, gone: Gone): Removal
    requires id in acc.pdm && BucketShape(id, acc.pdm[id])
  {
    var b := acc.pdm[id];
    var j := FirstRecord(b, name, generateName);
    if acc.panicked || j == |b| then acc
    else
      var service := b[0].service;
      var drop := Drops(b, j, gone);
      var pdm := if drop then acc.pdm - {id} else acc.pdm[id := Without(b, j)];
      if b[j].record.podName == name then
        Removal(pdm, id, if |b| <= 2 then drop else acc.removed, service.owner, drop && name == generateName)
      else
        Removal(pdm, if drop then acc.podSpecId else service.podSpecId, acc.removed, service.owner, drop)
  }

  /** `RemovePod`. */
  function RemoveScan(pdm: Index, order: seq<int>, name: string, generateName: string, gone: Gone): (r: Removal)
    requires Shape(pdm) && IsPartialOrder(order, pdm)
    ensures r.pdm.Keys <= pdm.Keys
    ensures forall id <- pdm :: id !in order ==> id in r.pdm && r.pdm[id] == pdm[id]
    decreases |order|
  {
    if order == [] then Removal(pdm, -1, false, NO_OWNER, false)
    else
      var n := |order| - 1;
      var acc := RemoveScan(pdm, order[..n], name, generateName, gone);
      assert order[n] !in order[..n];
      assert forall id :: id in order <==> id in order[..n] || id == order[n];
      Visit(acc, order[n], name, generateName, gone)
  }

  /** The last visit of a scan. */
  lemma LastVisit(pdm: Index, order: seq<int>, name: string, generateName: string, gone: Gone)
    requires Shape(pdm) && IsPartialOrder(order, pdm) && order != []
    ensures var n := |order| - 1;
      && IsPartialOrder(order[..n], pdm)
      && var acc := RemoveScan(pdm, order[..n], name, generateName, gone);
      && order[n] in acc.pdm && BucketShape(order[n], acc.pdm[order[n]])
      && RemoveScan(pdm, order, name, generateName, gone) == Visit(acc, order[n], name, generateName, gone)
  {
    assert order[|order| - 1] !in order[..|order| - 1];
  }

  /** The next iteration of the loop in `RemovePod`. */
  lemma RemoveScanNext(pdm: Index, order: seq<int>, n: nat, name: string, generateName: string, gone: Gone)
    requires Shape(pdm) && IsPartialOrder(order, pdm) && n < |order|
    ensures IsPartialOrder(order[..n], pdm) && IsPartialOrder(order[..n + 1], pdm)
    ensures var acc := RemoveScan(pdm, order[..n], name, generateName, gone);
      && order[n] in acc.pdm && BucketShape(order[n], acc.pdm[order[n]])
      && RemoveScan(pdm, order[..n + 1], name, generateName, gone) == Visit(acc, order[n], name, generateName, gone)
  {
    var next := order[..n + 1];
    assert IsPartialOrder(next, pdm) && next[..|next| - 1] == order[..n] && next[|next| - 1] == order[n];
    LastVisit(pdm, next, name, generateName, gone);
  }

  /** What becomes of one bucket, whatever the other buckets are. */
  function BucketAfter(b: Bucket, name: string, generateName: string, gone: Gone): Option<Bucket> {
    var j := FirstRecord(b, name, generateName);
    if j == |b| then Some(b)
    else if Drops(b, j, gone) then None
    else Some(Without(b, j))
  }

  /** The bucket on which the scan panics: the match is through the generated name and empties the list. */
  predicate PanicsOn(b: Bucket, name: string, generateName: string, gone: Gone) {
    var j := FirstRecord(b, name, generateName);
    j < |b| && Drops(b, j, gone) && b[j].record.podName == generateName
  }

  lemma VisitByBucket(acc: Removal, id: int, name: string, generateName: string, gone: Gone)
    requires id in acc.pdm && BucketShape(id, acc.pdm[id]) && !acc.panicked
    ensures var r := Visit(acc, id, name, generateName, gone);
      var after := BucketAfter(acc.pdm[id], name, generateName, gone);
      && (r.panicked <==> PanicsOn(acc.pdm[id], name, generateName, gone))
      && r.pdm == if after.Some? then acc.pdm[id := after.value] else acc.pdm - {id}
  {
  }

  /** The index after the scans of all the buckets, each on its own. */
  function RemoveAll(pdm: Index, ids: set<int>, name: string, generateName: string, gone: Gone): Index {
    map id | id in pdm && (id in ids ==> BucketAfter(pdm[id], name, generateName, gone).Some?) ::
      if id in ids then BucketAfter(pdm[id], name, generateName, gone).value else pdm[id]
  }

  lemma RemoveAllOneMore(pdm: Index, ids: set<int>, id: int, name: string, generateName: string, gone: Gone)
    requires id in pdm && id !in ids
    ensures var before := RemoveAll(pdm, ids, name, generateName, gone);
      var after := BucketAfter(pdm[id], name, generateName, gone);
      RemoveAll(pdm, ids + {id}, name, generateName, gone) ==
        if after.Some? then before[id := after.value] else before - {id}
  {
  }

  function Ids(order: seq<int>): set<int> {
    set id | id in order
  }

  lemma IdsOneMore(order: seq<int>, pdm: Index)
    requires IsPartialOrder(order, pdm) && order != []
    ensures var n := |order| - 1;
      IsPartialOrder(order[..n], pdm) && order[n] !in order[..n] && Ids(order) == Ids(order[..n]) + {order[n]}
  {
  }

  /** `RemovePod` panics exactly if some bucket's scan removes the last pod of a microservice whose owner is
      gone and that pod is tracked under the event pod's generated name. */
  lemma {:induction false} RemoveScanPanics(
      pdm: Index, order: seq<int>, name: string, generateName: string, gone: Gone)
    requires Shape(pdm) && IsPartialOrder(order, pdm)
    ensures RemoveScan(pdm, order, name, generateName, gone).panicked <==>
      exists id <- Ids(order) :: PanicsOn(pdm[id], name, generateName, gone)
    decreases |order|
  {
    if order == [] {
    } else {
      var n := |order| - 1;
      IdsOneMore(order, pdm);
      RemoveScanPanics(pdm, order[..n], name, generateName, gone);
      var acc := RemoveScan(pdm, order[..n], name, generateName, gone);
      if !acc.panicked {
        VisitByBucket(acc, order[n], name, generateName, gone);
      }
    }
  }

  /** Without a panic every bucket is treated on its own: the resulting index does not depend on the visiting
      order. */
  lemma {:induction false} RemoveScanByBucket(
      pdm: Index, order: seq<int>, name: string, generateName: string, gone: Gone)
    requires Shape(pdm) && IsPartialOrder(order, pdm)
    requires !RemoveScan(pdm, order, name, generateName, gone).panicked
    ensures RemoveScan(pdm, order, name, generateName, gone).pdm ==
      RemoveAll(pdm, Ids(order), name, generateName, gone)
    decreases |order|
  {
    if order == [] {
    } else {
      var n := |order| - 1;
      IdsOneMore(order, pdm);
      RemoveScanByBucket(pdm, order[..n], name, generateName, gone);
      var acc := RemoveScan(pdm, order[..n], name, generateName, gone);
      VisitByBucket(acc, order[n], name, generateName, gone);
      RemoveAllOneMore(pdm, Ids(order[..n]), order[n], name, generateName, gone);
    }
  }

  /** With or without a panic, each bucket is left as it was or as its own scan leaves it. */
  lemma {:induction false} RemoveScanEachBucket(
      pdm: Index, order: seq<int>, name: string, generateName: string, gone: Gone, id: int)
    requires Shape(pdm) && IsPartialOrder(order, pdm) && id in pdm
    ensures var r := RemoveScan(pdm, order, name, generateName, gone);
      var after := BucketAfter(pdm[id], name, generateName, gone);
      || (id in r.pdm && r.pdm[id] == pdm[id])
      || (if after.Some? then id in r.pdm && r.pdm[id] == after.value else id !in r.pdm)
    decreases |order|
  {
    if order == [] {
    } else {
      var n := |order| - 1;
      IdsOneMore(order, pdm);
      RemoveScanEachBucket(pdm, order[..n], name, generateName, gone, id);
      var acc := RemoveScan(pdm, order[..n], name, generateName, gone);
      if !acc.panicked {
        VisitByBucket(acc, order[n], name, generateName, gone);
      }
    }
  }

  /** No tracked pod carries the generated name, so only the name itself can match. */
  ghost predicate NoClash(pdm: Index, generateName: string) {
    forall id <- pdm :: !Holds(pdm[id], generateName)
  }

  // ----- what removal does to one bucket -----

  /** A bucket only shrinks: its header stays, and without a matching record it is left as it is. */
  lemma BucketAfterShape(id: int, b: Bucket, name: string, generateName: string, gone: Gone)
    requires BucketShape(id, b) && BucketAfter(b, name, generateName, gone).Some?
    ensures var after := BucketAfter(b, name, generateName, gone).value;
      && BucketShape(id, after)
      && (after == [] <==> b == [])
      && (b != [] ==> after[0] == b[0])
      && (forall key :: Matches(after, key) ==> Matches(b, key))
      && (|b| <= 1 ==> after == b)
  {
  }

  /** The records of a bucket except those of one name. */
  function Except(b: Bucket, name: string): Bucket {
    if b == [] then []
    else if b[0].Record? && b[0].record.podName == name then Except(b[1..], name)
    else [b[0]] + Except(b[1..], name)
  }

  lemma {:induction false} ExceptNone(b: Bucket, name: string)
    requires !Holds(b, name)
    ensures Except(b, name) == b
  {
    if b == [] {
    } else {
      assert forall i :: 0 <= i < |b[1..]| ==> b[1..][i] == b[i + 1];
      ExceptNone(b[1..], name);
    }
  }

  lemma {:induction false} ExceptFirst(b: Bucket, name: string, generateName: string)
    requires !Holds(b, generateName) && FirstRecord(b, name, generateName) < |b|
    requires forall i, j :: 0 <= i < j < |b| && b[i].Record? && b[j].Record? ==>
      b[i].record.podName != b[j].record.podName
    ensures Except(b, name) == Without(b, FirstRecord(b, name, generateName))
  {
    var j := FirstRecord(b, name, generateName);
    assert forall i :: 0 <= i < |b[1..]| ==> b[1..][i] == b[i + 1];
    if j == 0 {
      assert Without(b, 0) == b[1..];
      ExceptNone(b[1..], name);
    } else {
      ExceptFirst(b[1..], name, generateName);
      assert Without(b, j) == [b[0]] + Without(b[1..], j - 1);
    }
  }

  /** If no pod of the bucket carries the generated name, the scan removes the pod of the event's name, and
      leaves all other pods of the bucket as and where they were, although it stops at its first removal. */
  lemma RemovalIsComplete(id: int, b: Bucket, name: string, generateName: string, gone: Gone)
    requires BucketShape(id, b) && !Holds(b, generateName)
    ensures BucketAfter(b, name, generateName, gone) ==
      if Holds(b, name) && (b[0].service.owner, b[0].service.pod.namespace) in gone && |Except(b, name)| <= 1 then None
      else Some(Except(b, name))
  {
    var j := FirstRecord(b, name, generateName);
    if j < |b| {
      ExceptFirst(b, name, generateName);
    } else {
      ExceptNone(b, name);
    }
  }

  /** The name of the pod that the scan takes out of a bucket, if it takes one. */
  function Taken(b: Bucket, name: string, generateName: string): Option<string> {
    var j := FirstRecord(b, name, generateName);
    if j < |b| then Some(b[j].record.podName) else None
  }

  /** In general, clash or not, a bucket loses the first pod that carries either name and no other. So a pod of
      the generated name that comes first is lost, and the pod of the event stays. */
  lemma RemovalIsCompleteExactly(
      id: int, b: Bucket, name: string, generateName: string, gone: Gone, other: string)
    requires BucketShape(id, b)
    ensures var after := BucketAfter(b, name, generateName, gone);
      (after.Some? && Holds(after.value, other)) <==> Holds(b, other) && Taken(b, name, generateName) != Some(other)
  {
    var j := FirstRecord(b, name, generateName);
    if j < |b| {
      var rest := Without(b, j);
      assert forall i :: 0 <= i < |rest| ==> rest[i] == if i < j then b[i] else b[i + 1];
      if Holds(b, other) && b[j].record.podName != other {
        var i :| 0 <= i < |b| && b[i].Record? && b[i].record.podName == other;
        assert rest[if i < j then i else i - 1] == b[i];
      }
    }
  }

  /** The holders of every name after a removal: those that held it, except where it was the name taken. */
  lemma HoldersAfterAnyRemoval(pdm: Index, name: string, generateName: string, gone: Gone, other: string)
    requires Shape(pdm)
    ensures Holders(RemoveAll(pdm, pdm.Keys, name, generateName, gone), other) ==
      set id | id in Holders(pdm, other) && Taken(pdm[id], name, generateName) != Some(other)
  {
    forall id <- pdm
      ensures var after := BucketAfter(pdm[id], name, generateName, gone);
        (after.Some? && Holds(after.value, other))
        <==> Holds(pdm[id], other) && Taken(pdm[id], name, generateName) != Some(other)
    {
      RemovalIsCompleteExactly(id, pdm[id], name, generateName, gone, other);
    }
  }

  /** Without a clash: none for the removed name, the same for all others. */
  lemma HoldersAfterRemoval(pdm: Index, name: string, generateName: string, gone: Gone, other: string)
    requires Shape(pdm) && NoClash(pdm, generateName)
    ensures Holders(RemoveAll(pdm, pdm.Keys, name, generateName, gone), other) ==
      if other == name then {} else Holders(pdm, other)
  {
    HoldersAfterAnyRemoval(pdm, name, generateName, gone, other);
    forall id <- pdm
      ensures Taken(pdm[id], name, generateName) == if Holds(pdm[id], name) then Some(name) else None
    {
      assert !Holds(pdm[id], generateName);
    }
  }

  lemma AllVisited(pdm: Index, order: seq<int>)
    requires IsOrder(order, pdm)
    ensures Ids(order) == pdm.Keys
  {
    assert forall id :: id in pdm ==> id in order;
    forall id | id in order
      ensures id in pdm
    {
      var i :| 0 <= i < |order| && order[i] == id;
    }
  }

  /** The scan panics on no bucket. */
  ghost predicate CannotPanic(pdm: Index, name: string, generateName: string, gone: Gone) {
    forall id <- pdm :: !PanicsOn(pdm[id], name, generateName, gone)
  }

  /** With all buckets visited, `RemovePod` panics under one visiting order if and only if it does under every
      other; and if it does not, the index it leaves does not depend on the order. */
  lemma RemovalIsOrderFree(pdm: Index, order: seq<int>, name: string, generateName: string, gone: Gone)
    requires Shape(pdm) && IsOrder(order, pdm)
    ensures var r := RemoveScan(pdm, order, name, generateName, gone);
      && (r.panicked <==> !CannotPanic(pdm, name, generateName, gone))
      && (!r.panicked ==> r.pdm == RemoveAll(pdm, pdm.Keys, name, generateName, gone))
  {
    AllVisited(pdm, order);
    RemoveScanPanics(pdm, order, name, generateName, gone);
    if !RemoveScan(pdm, order, name, generateName, gone).panicked {
      RemoveScanByBucket(pdm, order, name, generateName, gone);
    }
  }
}

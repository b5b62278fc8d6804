/** The scan-candidate list: owners with recently created pods, counted, and the rule that decides when a
    new set of running images is worth a notification. */
module Candidates {
  import opened Types

  datatype Key = Key(namespace: string, ownerName: string, ownerKind: string)

  /** One candidate as a value. */
  datatype Candidate = Candidate(key: Key, pod: Pod, podsNumber: int)

  function KeyOf(od: OwnerDet, pod: Pod): Key {
    Key(pod.namespace, od.name, od.kind)
  }

  // ----- the list as a value -----

  ghost predicate Sound(v: seq<Candidate>) {
    && (forall i, j :: 0 <= i < j < |v| ==> v[i].key != v[j].key)
    && (forall i :: 0 <= i < |v| ==> v[i].podsNumber >= 1 && v[i].pod.namespace == v[i].key.namespace)
  }

  /** Where `k` is listed first; past the end when it is not listed. */
  function Find(v: seq<Candidate>, k: Key): (i: nat)
    ensures i <= |v| && (i < |v| ==> v[i].key == k)
    ensures forall j :: 0 <= j < i ==> v[j].key != k
  {
    if v == [] || v[0].key == k then 0 else Find(v[1..], k) + 1
  }

  function Add(v: seq<Candidate>, k: Key, pod: Pod): seq<Candidate> {
    var i := Find(v, k);
    if i == |v| then v + [Candidate(k, pod, 1)]
    else v[i := v[i].(podsNumber := v[i].podsNumber + 1)]
  }

  function Remove(v: seq<Candidate>, k: Key): seq<Candidate> {
    var i := Find(v, k);
    if i == |v| then v
    else if v[i].podsNumber == 1 then v[..i] + v[i + 1..]
    else v[i := v[i].(podsNumber := v[i].podsNumber - 1)]
  }

  /** Whether a pod of owner `k` with this status is reported as running new images. */
  predicate Notifies(v: seq<Candidate>, k: Key, pod: Pod, podStatus: string) {
    var i := Find(v, k);
    && podStatus == "Running"
    && i < |v|
    && !(ImageIDs(pod.containers) <= ImageIDs(v[i].pod.containers))
  }

  function Check(v: seq<Candidate>, k: Key, pod: Pod, podStatus: string): seq<Candidate> {
    if Notifies(v, k, pod, podStatus) then var i := Find(v, k); v[i := v[i].(pod := pod)] else v
  }

  // ----- the source's functions -----

  method IsContainersIDSChanged(podWithNewState: seq<ContainerStatus>, oldPod: seq<ContainerStatus>)
      returns (changed: bool)
    ensures changed <==> !(ImageIDs(podWithNewState) <= ImageIDs(oldPod))
  {
    if |podWithNewState| > |oldPod| {
      return true;
    }
    var length := |podWithNewState|;
    for i := 0 to length
      invariant forall j :: 0 <= j < i ==> podWithNewState[j].imageID == oldPod[j].imageID
    {
      if podWithNewState[i].imageID != oldPod[i].imageID {
        assert ImageIDs(podWithNewState)[i] != ImageIDs(oldPod)[i];
        return true;
      }
    }
    return false;
  }

  /** The source compares the pod's creation time with itself. */
  method IsPodIsTheNewOne(pod: Pod) returns (newer: bool)
    ensures newer
  {
    newer := pod.created == pod.created || pod.created > pod.created;
  }

  class ScanNewImageData {
    var pod: Pod
    const owner: OwnerDet
    var podsNumber: int

    constructor (pod: Pod, owner: OwnerDet)
      ensures this.pod == pod && this.owner == owner && podsNumber == 1
    {
      this.pod := pod;
      this.owner := owner;
      podsNumber := 1;
    }

    ghost function Value(): Candidate
      reads this
    {
      Candidate(KeyOf(owner, pod), pod, podsNumber)
    }

    predicate Matches(od: OwnerDet, other: Pod)
      reads this
    {
      other.namespace == pod.namespace && owner.name == od.name && owner.kind == od.kind
    }
  }

  class CandidateList {
    var items: seq<ScanNewImageData>

    ghost function View(): (v: seq<Candidate>)
      reads this, items
    {
      seq(|items|, i requires 0 <= i < |items| reads this, items => items[i].Value())
    }

    /** No two entries are the same object. */
    ghost predicate Distinct()
      reads this
    {
      forall i, j :: 0 <= i < j < |items| ==> items[i] != items[j]
    }

    ghost predicate Valid()
      reads this, items
    {
      Distinct() && Sound(View())
    }

    constructor ()
      ensures Valid() && View() == [] && items == []
    {
      items := [];
    }

    method IsPodAlreadyExist(od: OwnerDet, pod: Pod) returns (exist: bool, index: int)
      requires Valid()
      ensures exist <==> Find(View(), KeyOf(od, pod)) < |View()|
      ensures index == if exist then Find(View(), KeyOf(od, pod)) else -1
    {
      for i := 0 to |items|
        invariant forall j :: 0 <= j < i ==> View()[j].key != KeyOf(od, pod)
      {
        if items[i].Matches(od, pod) {
          assert View()[i].key == KeyOf(od, pod);
          return true, i;
        }
        assert View()[i].key != KeyOf(od, pod);
      }
      return false, -1;
    }

    /** Changes the count of one entry in place. */
    method SetCount(i: nat, n: int)
      requires i < |items| && Distinct()
      modifies items[i]
      ensures View() == old(View())[i := old(View())[i].(podsNumber := n)]
    {
      items[i].podsNumber := n;
      assert forall j :: 0 <= j < |items| && j != i ==> items[j] != items[i];
    }

    /** Changes the pod of one entry in place. */
    method SetPod(i: nat, pod: Pod)
      requires i < |items| && Distinct() && pod.namespace == items[i].pod.namespace
      modifies items[i]
      ensures View() == old(View())[i := old(View())[i].(pod := pod)]
    {
      items[i].pod := pod;
      assert forall j :: 0 <= j < |items| && j != i ==> items[j] != items[i];
    }

    /** Takes one entry out. */
    method Detach(i: nat)
      requires i < |items| && Distinct()
      modifies this`items
      ensures Distinct() && (forall x <- items :: x in old(items))
      ensures View() == old(View())[..i] + old(View())[i + 1..]
    {
      items := items[..i] + items[i + 1..];
    }

    method AddPod(od: OwnerDet, pod: Pod)
      requires Valid()
      modifies this, items
      ensures Valid() && fresh(set x | x in items && x !in old(items))
      ensures View() == Add(old(View()), KeyOf(od, pod), pod)
    {
      var exist, index := IsPodAlreadyExist(od, pod);
      ghost var v := View();
      AddSound(v, KeyOf(od, pod), pod);
      if !exist {
        var nms := new ScanNewImageData(pod, od);
        items := items + [nms];
        assert View() == v + [Candidate(KeyOf(od, pod), pod, 1)];
      } else {
        SetCount(index, items[index].podsNumber + 1);
      }
    }

    method RemovePod(od: OwnerDet, pod: Pod)
      requires Valid()
      modifies this, items
      ensures Valid() && (forall x <- items :: x in old(items))
      ensures View() == Remove(old(View()), KeyOf(od, pod))
    {
      ghost var v := View();
      ghost var k := KeyOf(od, pod);
      RemoveSound(v, k);
      for i := 0 to |items|
        invariant items == old(items)
        invariant View() == if Find(v, k) < i then Remove(v, k) else v
        invariant Find(v, k) < i ==> v[Find(v, k)].podsNumber > 1
      {
        ghost var w := View();
        assert w[i] == items[i].Value();
        RemoveStep(v, k, w, i);
        if items[i].Matches(od, pod) {
          SetCount(i, items[i].podsNumber - 1);
          assert View()[i] == items[i].Value();
          if items[i].podsNumber == 0 {
            Detach(i);
            return;
          }
        }
      }
    }

    method CheckNotification(pod: Pod, od: OwnerDet, podStatus: string) returns (notify: bool)
      requires Valid()
      modifies items
      ensures Valid()
      ensures notify <==> Notifies(old(View()), KeyOf(od, pod), pod, podStatus)
      ensures View() == Check(old(View()), KeyOf(od, pod), pod, podStatus)
    {
      if podStatus != "Running" {
        return false;
      }
      ghost var v := View();
      ghost var k := KeyOf(od, pod);
      for i := 0 to |items|
        invariant View() == v
        invariant forall j :: 0 <= j < i ==> v[j].key != k
      {
        var data := items[i];
        assert v[i] == data.Value();
        if data.Matches(od, pod) {
          var newer := IsPodIsTheNewOne(data.pod);
          var changed := IsContainersIDSChanged(pod.containers, data.pod.containers);
          if newer && changed {
            SetPod(i, pod);
            return true;
          } else {
            return false;
          }
        }
      }
      return false;
    }
  }

  /** One iteration of the loop in `RemovePod`: what it makes of the entry it looks at. `w`: the list then. */
  lemma RemoveStep(v: seq<Candidate>, k: Key, w: seq<Candidate>, i: nat)
    requires Sound(v) && i < |v|
    requires w == if Find(v, k) < i then Remove(v, k) else v
    requires Find(v, k) < i ==> v[Find(v, k)].podsNumber > 1
    ensures w[i].key == k <==> Find(v, k) == i
    ensures w[i].key == k ==>
      Remove(v, k) ==
        if w[i].podsNumber == 1 then w[..i] + w[i + 1..] else w[i := w[i].(podsNumber := w[i].podsNumber - 1)]
  {
  }

  // ----- what every operation keeps -----

  lemma AddSound(v: seq<Candidate>, k: Key, pod: Pod)
    requires Sound(v) && pod.namespace == k.namespace
    ensures Sound(Add(v, k, pod))
  {
  }

  lemma RemoveSound(v: seq<Candidate>, k: Key)
    requires Sound(v)
    ensures Sound(Remove(v, k))
  {
  }

  // ----- the list as a counted multiset -----

  function Count(v: seq<Candidate>, k: Key): int {
    var i := Find(v, k);
    if i < |v| then v[i].podsNumber else 0
  }

  lemma CountIsPositive(v: seq<Candidate>, k: Key)
    requires Sound(v)
    ensures Count(v, k) >= 0 && (Count(v, k) > 0 <==> Find(v, k) < |v|)
  {
  }

  datatype Op =
    | AddOp(key: Key, pod: Pod)
    | RemoveOp(key: Key)
    | CheckOp(key: Key, pod: Pod, podStatus: string)
  {
    predicate Proper() {
      RemoveOp? || pod.namespace == key.namespace
    }
  }

  function Apply(v: seq<Candidate>, op: Op): seq<Candidate> {
    match op
    case AddOp(k, pod) => Add(v, k, pod)
    case RemoveOp(k) => Remove(v, k)
    case CheckOp(k, pod, podStatus) => Check(v, k, pod, podStatus)
  }

  function Run(v: seq<Candidate>, ops: seq<Op>): seq<Candidate>
    decreases |ops|
  {
    if ops == [] then v else Run(Apply(v, ops[0]), ops[1..])
  }

  /** The counter of one key, replayed on its own: it goes up with each addition and down with each removal,
      but not below zero. */
  function Replay(count: int, ops: seq<Op>, k: Key): int
    decreases |ops|
  {
    if ops == [] then count
    else
      var next :=
        if ops[0].key != k || ops[0].CheckOp? then count
        else if ops[0].AddOp? then count + 1
        else if count > 0 then count - 1 else 0;
      Replay(next, ops[1..], k)
  }

  lemma FindIs(v: seq<Candidate>, k: Key, i: nat)
    requires Sound(v) && i < |v| && v[i].key == k
    ensures Find(v, k) == i
  {
  }

  /** The entry of `op` is taken out. */
  predicate Detaches(v: seq<Candidate>, op: Op) {
    var j := Find(v, op.key);
    op.RemoveOp? && j < |v| && v[j].podsNumber == 1
  }

  /** Removing an entry moves the later ones down by one. */
  lemma FindAfterDetach(v: seq<Candidate>, op: Op, k: Key)
    requires Sound(v) && Detaches(v, op) && Find(v, k) < |v|
    ensures
      var i, j, w := Find(v, k), Find(v, op.key), Apply(v, op);
      if i == j then Find(w, k) == |w|
      else Find(w, k) == (if i < j then i else i - 1) && w[Find(w, k)] == v[i]
  {
    var i, j, w := Find(v, k), Find(v, op.key), Apply(v, op);
    assert w == v[..j] + v[j + 1..];
    RemoveSound(v, op.key);
    if i < j {
      assert w[i] == v[i];
      FindIs(w, k, i);
    } else if i > j {
      assert w[i - 1] == v[i];
      FindIs(w, k, i - 1);
    } else {
      assert forall m :: 0 <= m < |w| ==> w[m] == v[if m < j then m else m + 1];
    }
  }

  /** Updating an entry in place, or adding one at the end, moves none. */
  lemma FindAfterUpdate(v: seq<Candidate>, op: Op, k: Key)
    requires Sound(v) && op.Proper() && !Detaches(v, op) && Find(v, k) < |v|
    ensures
      var i, j, w := Find(v, k), Find(v, op.key), Apply(v, op);
      Find(w, k) == i && |w| >= |v| && (i != j ==> w[i] == v[i])
  {
    var i, w := Find(v, k), Apply(v, op);
    ApplySound(v, op);
    assert |w| >= |v| && w[i].key == k;
    FindIs(w, k, i);
  }

  lemma ApplySound(v: seq<Candidate>, op: Op)
    requires Sound(v) && op.Proper()
    ensures Sound(Apply(v, op))
  {
    match op
    case AddOp(k, pod) => AddSound(v, k, pod);
    case RemoveOp(k) => RemoveSound(v, k);
    case CheckOp(k, pod, podStatus) =>
      var w := Check(v, k, pod, podStatus);
      assert forall i :: 0 <= i < |w| ==> w[i].key == v[i].key && w[i].podsNumber == v[i].podsNumber;
  }

  /** One operation changes the count of its own key only. */
  lemma ApplyCount(v: seq<Candidate>, op: Op, k: Key)
    requires Sound(v) && op.Proper()
    ensures Count(Apply(v, op), k) == Replay(Count(v, k), [op], k)
  {
    var w := Apply(v, op);
    assert Replay(Count(v, k), [op], k) ==
      if op.key != k || op.CheckOp? then Count(v, k)
      else if op.AddOp? then Count(v, k) + 1
      else if Count(v, k) > 0 then Count(v, k) - 1 else 0;
    if Find(v, k) < |v| {
      if Detaches(v, op) { FindAfterDetach(v, op, k); } else { FindAfterUpdate(v, op, k); }
    } else if op.AddOp? && op.key == k {
      ApplySound(v, op);
      FindIs(w, k, |v|);
    } else {
      assert forall j :: 0 <= j < |w| ==> w[j].key != k;
    }
  }

  /** Over any sequence of operations, the list holds exactly the keys whose replayed counter is positive,
      each once, with that counter. */
  lemma {:induction false} CandidateListIsCountedMultiset(v: seq<Candidate>, ops: seq<Op>, k: Key)
    requires Sound(v) && (forall op <- ops :: op.Proper())
    ensures Sound(Run(v, ops))
    ensures Count(Run(v, ops), k) == Replay(Count(v, k), ops, k)
    decreases |ops|
  {
    if ops == [] {
    } else {
      ApplySound(v, ops[0]);
      ApplyCount(v, ops[0], k);
      CandidateListIsCountedMultiset(Apply(v, ops[0]), ops[1..], k);
    }
  }

  // ----- notifications over whole runs -----

  /** The images remembered for a listed key. */
  function Stored(v: seq<Candidate>, k: Key): seq<string> {
    var i := Find(v, k);
    if i < |v| then ImageIDs(v[i].pod.containers) else []
  }

  /** The key stays listed from the start to the end of the run. */
  predicate Listed(v: seq<Candidate>, ops: seq<Op>, k: Key)
    decreases |ops|
  {
    Find(v, k) < |v| && (ops != [] ==> Listed(Apply(v, ops[0]), ops[1..], k))
  }

  /** The image lists notified for a key, in order. */
  function Notified(v: seq<Candidate>, ops: seq<Op>, k: Key): seq<seq<string>>
    decreases |ops|
  {
    if ops == [] then []
    else
      var op := ops[0];
      var rest := Notified(Apply(v, op), ops[1..], k);
      if op.CheckOp? && op.key == k && Notifies(v, k, op.pod, op.podStatus)
      then [ImageIDs(op.pod.containers)] + rest
      else rest
  }

  /** No list of images is a prefix of the one notified before it. */
  ghost predicate NeverPrefix(previous: seq<string>, notified: seq<seq<string>>) {
    && (notified != [] ==> !(notified[0] <= previous))
    && (forall i, j :: 0 <= i < j < |notified| && j == i + 1 ==> !(notified[j] <= notified[i]))
  }

  lemma ApplyStored(v: seq<Candidate>, op: Op, k: Key)
    requires Sound(v) && op.Proper()
    requires Find(v, k) < |v| && Find(Apply(v, op), k) < |Apply(v, op)|
    ensures Stored(Apply(v, op), k) ==
      if op.CheckOp? && op.key == k && Notifies(v, k, op.pod, op.podStatus) then ImageIDs(op.pod.containers)
      else Stored(v, k)
  {
    if Detaches(v, op) { FindAfterDetach(v, op, k); } else { FindAfterUpdate(v, op, k); }
  }

  /** While a key stays listed, a notified list of images is never a prefix of the list remembered before,
      which is the last one notified. */
  lemma {:induction false} NotificationsAreNew(v: seq<Candidate>, ops: seq<Op>, k: Key)
    requires Sound(v) && (forall op <- ops :: op.Proper()) && Listed(v, ops, k)
    ensures NeverPrefix(Stored(v, k), Notified(v, ops, k))
    ensures var n := Notified(v, ops, k);
      Stored(Run(v, ops), k) == if n == [] then Stored(v, k) else n[|n| - 1]
    decreases |ops|
  {
    if ops == [] {
    } else {
      ApplySound(v, ops[0]);
      ApplyStored(v, ops[0], k);
      NotificationsAreNew(Apply(v, ops[0]), ops[1..], k);
      var rest := Notified(Apply(v, ops[0]), ops[1..], k);
      var n := Notified(v, ops, k);
      assert n == rest || n == [n[0]] + rest;
    }
  }

  lemma {:induction false} EveryNotificationWasChecked(v: seq<Candidate>, ops: seq<Op>, k: Key, images: seq<string>)
    requires forall op <- ops :: op.CheckOp? && op.key == k && op.podStatus == "Running" ==>
      ImageIDs(op.pod.containers) == images
    ensures forall n <- Notified(v, ops, k) :: n == images
    decreases |ops|
  {
    if ops == [] {
    } else {
      EveryNotificationWasChecked(Apply(v, ops[0]), ops[1..], k, images);
    }
  }

  lemma ConstantRepeats(previous: seq<string>, n: seq<seq<string>>, images: seq<string>)
    requires forall x <- n :: x == images
    requires |n| > 1 || (|n| == 1 && images <= previous)
    ensures !NeverPrefix(previous, n)
  {
    assert n[0] in n;
    if |n| > 1 {
      assert n[1] in n;
      assert n[1] <= n[0];
    }
  }

  /** If every running pod of a listed owner shows the same images, there is at most one notification. */
  lemma SameImagesNotifyOnce(v: seq<Candidate>, ops: seq<Op>, k: Key, images: seq<string>)
    requires Sound(v) && (forall op <- ops :: op.Proper()) && Listed(v, ops, k)
    requires forall op <- ops :: op.CheckOp? && op.key == k && op.podStatus == "Running" ==>
      ImageIDs(op.pod.containers) == images
    ensures |Notified(v, ops, k)| <= 1
    ensures images <= Stored(v, k) ==> Notified(v, ops, k) == []
  {
    NotificationsAreNew(v, ops, k);
    EveryNotificationWasChecked(v, ops, k, images);
    var n := Notified(v, ops, k);
    if |n| > 1 || (|n| == 1 && images <= Stored(v, k)) {
      ConstantRepeats(Stored(v, k), n, images);
    }
  }
}

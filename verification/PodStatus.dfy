/** The status text the collector derives for a pod from its containers. */
module PodStatus {
  import opened Types

  /** What one container contributes: nothing, or the reason it waits or has terminated (waiting wins). */
  function Reason(c: ContainerStatus): Option<string> {
    if c.waiting.Some? then c.waiting else c.terminated
  }

  /** The last container that is waiting or terminated; -1 if every container is neither. */
  function LastStopped(containers: seq<ContainerStatus>): (j: int)
    ensures -1 <= j < |containers|
    ensures j >= 0 ==> Reason(containers[j]).Some?
    ensures forall i :: j < i < |containers| ==> Reason(containers[i]).None?
  {
    if containers == [] then -1
    else if Reason(containers[|containers| - 1]).Some? then |containers| - 1
    else LastStopped(containers[..|containers| - 1])
  }

  predicate SomeRunningFrom(containers: seq<ContainerStatus>, from: int) {
    exists i :: 0 <= i < |containers| && from <= i && containers[i].running
  }

  /** The status without looking at containers in order: the reason of the last stopped container if that
      is not empty; else "Running" if a container from there on runs; else nothing. */
  function Summary(containers: seq<ContainerStatus>): string {
    var j := LastStopped(containers);
    if j >= 0 && Reason(containers[j]).value != "" then Reason(containers[j]).value
    else if SomeRunningFrom(containers, j) then "Running"
    else ""
  }

  function StatusOf(pod: Pod): string {
    var s := Summary(pod.containers);
    if s == "" then pod.phase else s
  }

  /** How one more container changes the summary: the body of the loop below. */
  lemma SummaryStep(containers: seq<ContainerStatus>, i: nat)
    requires i < |containers|
    ensures
      var before := Summary(containers[..i]);
      var stopped := Reason(containers[i]).GetOr(before);
      Summary(containers[..i + 1]) == if containers[i].running && stopped == "" then "Running" else stopped
  {
    var before, after := containers[..i], containers[..i + 1];
    assert after[..|after| - 1] == before;
    assert forall k :: 0 <= k < i ==> after[k] == before[k];
    if containers[i].running {
      assert after[i].running;
    }
    var j := LastStopped(before);
    if SomeRunningFrom(before, j) {
      var k :| 0 <= k < |before| && j <= k && before[k].running;
      assert after[k].running;
    }
  }

  method GetPodStatus(pod: Pod) returns (status: string)
    ensures status == StatusOf(pod)
  {
    status := "";
    for i := 0 to |pod.containers|
      invariant status == Summary(pod.containers[..i])
    {
      SummaryStep(pod.containers, i);
      var c := pod.containers[i];
      if c.terminated.Some? {
        status := c.terminated.value;
      }
      if c.waiting.Some? {
        status := c.waiting.value;
      }
      if c.running {
        if status == "" {
          status := "Running";
        }
      }
    }
    assert pod.containers[..|pod.containers|] == pod.containers;
    if status == "" {
      status := pod.phase;
    }
  }

  predicate IsStopped(c: ContainerStatus) {
    c.waiting.Some? || c.terminated.Some?
  }

  lemma {:induction false} LastStoppedIs(containers: seq<ContainerStatus>, i: int)
    requires -1 <= i < |containers| && (i >= 0 ==> IsStopped(containers[i]))
    requires forall j :: i < j < |containers| ==> !IsStopped(containers[j])
    ensures LastStopped(containers) == i
  {
    if i < |containers| - 1 {
      LastStoppedIs(containers[..|containers| - 1], i);
    }
  }

  /** The last container that waits or has terminated decides, with the reason why it waits before the one why it has
      terminated. If that reason is empty, a running container from there on makes the pod "Running"; failing that,
      the phase shows. */
  lemma StatusIsReason(pod: Pod, i: nat)
    requires i < |pod.containers| && IsStopped(pod.containers[i])
    requires forall j :: i < j < |pod.containers| ==> !IsStopped(pod.containers[j])
    ensures var c := pod.containers[i];
      var reason := if c.waiting.Some? then c.waiting.value else c.terminated.value;
      StatusOf(pod) ==
        if reason != "" then reason
        else if exists j :: i <= j < |pod.containers| && pod.containers[j].running then "Running"
        else pod.phase
  {
    LastStoppedIs(pod.containers, i);
  }

  /** When no container waits or has terminated, a running one makes the pod "Running"; failing that, the phase
      shows. */
  lemma StatusWithoutReason(pod: Pod)
    requires forall j :: 0 <= j < |pod.containers| ==> !IsStopped(pod.containers[j])
    ensures StatusOf(pod) ==
      if exists j :: 0 <= j < |pod.containers| && pod.containers[j].running then "Running" else pod.phase
  {
    LastStoppedIs(pod.containers, -1);
  }
}

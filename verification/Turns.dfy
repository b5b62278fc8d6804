/** Whole turns of the watch loops as functions of values: the index, the report and the scan candidates. */
module Turns {
  import opened Types
  import opened Report
  import opened PodIndex
  import opened PodStatus
  import opened PodWatch
  import C = CronJobs
  import Candidates

  /** What the pod and cron job watchers share: the index with the ids, and the live report. */
  datatype Tracking = Tracking(index: State, report: Report)

  /** What the pod watcher works on. */
  datatype World = World(tracking: Tracking, candidates: seq<Candidates.Candidate>)

  /** `inform`: the listener is to be woken; `notify`: the scan of new images is to be triggered; `over`: the
      session ends. */
  datatype PodTurnResult = PodTurnResult(world: World, inform: bool, notify: bool, over: bool, panicked: bool)

  function Took(t: Tracking, out: Outcome): Tracking {
    Tracking(out.st, GrownAll(t.report, out.deltas))
  }

  /** The index is in order, and the live report carries neither version nor vendor nor installation data: only
      its copies do. */
  ghost predicate Sound(t: Tracking) {
    Inv(t.index) && t.report.version.None? && t.report.vendor == "" && t.report.installation.None?
  }

  /** An event of a pod in a watched namespace whose owner is known. */
  predicate HasOwner(namespaces: seq<string>, e: Event) {
    e.PodSeen? && e.owner.Some? && Watched(namespaces, e.pod.namespace)
  }

  /** What such an event does to the scan candidates. `reported`: whether it put entries in the report. */
  function CandidatesAfter(
      v: seq<Candidates.Candidate>, typ: WatchType, pod: Pod, od: OwnerDet, reported: bool,
      collectorCreationTime: Time): seq<Candidates.Candidate>
  {
    var k := Candidates.KeyOf(od, pod);
    match typ
    case Added => if reported && pod.created > collectorCreationTime then Candidates.Add(v, k, pod) else v
    case Modified => Candidates.Check(v, k, pod, StatusOf(pod))
    case Deleted => Candidates.Remove(v, k)
    case Bookmark => v
  }

  predicate NotifiesOf(v: seq<Candidates.Candidate>, typ: WatchType, pod: Pod, od: OwnerDet) {
    typ == Modified && Candidates.Notifies(v, Candidates.KeyOf(od, pod), pod, StatusOf(pod))
  }

  /** The turn for such an event. */
  function OwnedTurn(
      w: World, typ: WatchType, pod: Pod, od: OwnerDet, gone: Gone, order: seq<int>, now: Time,
      collectorCreationTime: Time): PodTurnResult
    requires Shape(w.tracking.index.pdm) && IsOrder(order, w.tracking.index.pdm)
  {
    var out := HandleWatched(w.tracking.index, typ, pod, od, gone, order, now);
    var inform := out.deltas != [];
    PodTurnResult(
      World(Took(w.tracking, out), CandidatesAfter(w.candidates, typ, pod, od, inform, collectorCreationTime)),
      inform, NotifiesOf(w.candidates, typ, pod, od), false, out.panicked)
  }

  /** One turn of the pod watch loop. */
  function PodTurn(namespaces: seq<string>, w: World, e: Event, collectorCreationTime: Time): PodTurnResult
    requires Shape(w.tracking.index.pdm) && OrderOk(w.tracking.index, e)
  {
    if HasOwner(namespaces, e) then
      OwnedTurn(w, e.typ, e.pod, e.owner.value, e.gone, e.order, e.now, collectorCreationTime)
    else
      var out := Handle(namespaces, w.tracking.index, e);
      PodTurnResult(World(Took(w.tracking, out), w.candidates), false, false, Ends(namespaces, e), false)
  }

  /** The turn does to index and report what the event does to them, and tells so. */
  lemma PodTurnTakes(namespaces: seq<string>, w: World, e: Event, collectorCreationTime: Time)
    requires Shape(w.tracking.index.pdm) && OrderOk(w.tracking.index, e)
    ensures var out := Handle(namespaces, w.tracking.index, e);
      var turn := PodTurn(namespaces, w, e, collectorCreationTime);
      && turn.world.tracking == Took(w.tracking, out)
      && (turn.inform <==> out.deltas != [])
      && turn.panicked == out.panicked
      && (turn.over <==> Ends(namespaces, e))
  {
  }

  lemma PodTurnSound(namespaces: seq<string>, w: World, e: Event, collectorCreationTime: Time)
    requires Sound(w.tracking) && OrderOk(w.tracking.index, e)
    ensures Sound(PodTurn(namespaces, w, e, collectorCreationTime).world.tracking)
  {
    HandleInv(namespaces, w.tracking.index, e);
    PodTurnTakes(namespaces, w, e, collectorCreationTime);
  }

  datatype CronTurnResult = CronTurnResult(
    tracking: Tracking, cronJobIDs: map<string, int>, watermark: Time, inform: bool)

  /** One turn of the cron job watch loop. The watermark of the cron job watcher is its own. */
  function CronTurn(
      namespaces: seq<string>, t: Tracking, cronJobIDs: map<string, int>, watermark: Time, e: C.CronEvent)
      : CronTurnResult
    requires Shape(t.index.pdm)
  {
    var out := C.HandleCronJob(namespaces, C.CronState(t.index, cronJobIDs, watermark), e);
    CronTurnResult(Tracking(out.st.index, GrownAll(t.report, out.deltas)), out.st.cronJobIDs, out.st.watermark,
                   out.deltas != [])
  }

  lemma CronTurnSound(
      namespaces: seq<string>, t: Tracking, cronJobIDs: map<string, int>, watermark: Time, e: C.CronEvent)
    requires Sound(t)
    ensures Sound(CronTurn(namespaces, t, cronJobIDs, watermark, e).tracking)
  {
    C.CronJobInv(namespaces, C.CronState(t.index, cronJobIDs, watermark), e);
  }
}

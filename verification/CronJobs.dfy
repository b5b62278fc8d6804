/** The cron job watch. Cron jobs take ids and empty buckets from the pod index, and are reported as
    microservices. */
module CronJobs {
  import opened Types
  import opened PodIndex
  import opened PodWatch

  /** `template`: the pod the job would run, with the metadata of the cron job. */
  datatype CronJob = CronJob(template: Pod, identity: string, spec: string)

  datatype CronEvent =
    | CronSessionEnds(now: Time)
    | CronJobSeen(typ: WatchType, job: CronJob)

  /** `cronJobIDs`: the ids of the cron jobs added in this session, by uid. */
  datatype CronState = CronState(index: State, cronJobIDs: map<string, int>, watermark: Time)

  datatype CronOutcome = CronOutcome(st: CronState, deltas: seq<Delta>)

  function OwnerOf(job: CronJob): OwnerDet {
    OwnerDet(job.template.name, "CronJob", Data(job.identity, Some(job.spec)))
  }

  function ServiceOf(job: CronJob, id: int): MicroServiceData {
    MicroServiceData(job.template, OwnerOf(job), id)
  }

  /** Reading a key that is not in the map gives 0. */
  function Read(cronJobIDs: map<string, int>, uid: string): int {
    if uid in cronJobIDs then cronJobIDs[uid] else 0
  }

  function HandleCronJob(namespaces: seq<string>, st: CronState, e: CronEvent): CronOutcome
    requires Shape(st.index.pdm)
  {
    match e
    case CronSessionEnds(now) => CronOutcome(st.(cronJobIDs := map[], watermark := now), [])
    case CronJobSeen(typ, job) =>
      var uid := job.template.uid;
      if !Watched(namespaces, job.template.namespace) then CronOutcome(st, [])
      else
        match typ
        case Added =>
          if job.template.created < st.watermark then CronOutcome(st, [])
          else
            var id := st.index.nextId;
            CronOutcome(
              st.(index := Handle(namespaces, st.index, CronJobAdded).st, cronJobIDs := st.cronJobIDs[uid := id]),
              [MicroDelta(CREATED, ServiceOf(job, id))])
        case Modified => CronOutcome(st, [MicroDelta(UPDATED, ServiceOf(job, Read(st.cronJobIDs, uid)))])
        case Deleted =>
          var left := st.cronJobIDs - {uid};
          CronOutcome(st.(cronJobIDs := left), [MicroDelta(DELETED, ServiceOf(job, Read(left, uid)))])
        case Bookmark => CronOutcome(st, [])
  }

  // ----- one event -----

  /** A cron job of a watched namespace is reported, in one entry, when it is modified or deleted, and when it is
      added unless it is too old. The entry shows its template and names it as its own owner. Only an added one
      touches the index: it takes the next id and an empty bucket. */
  lemma CronReport(namespaces: seq<string>, st: CronState, typ: WatchType, job: CronJob)
    requires Inv(st.index)
    ensures var out, t := HandleCronJob(namespaces, st, CronJobSeen(typ, job)), job.template;
      && out.st.watermark == st.watermark
      && if !Watched(namespaces, t.namespace) || typ == Bookmark || (typ == Added && t.created < st.watermark)
         then out == CronOutcome(st, [])
         else
           && |out.deltas| == 1
           && out.deltas[0].slot.kind == MICROSERVICES && out.deltas[0].entry.MicroEntry?
           && (out.deltas[0].slot.change == CREATED <==> typ == Added)
           && (out.deltas[0].slot.change == UPDATED <==> typ == Modified)
           && (out.deltas[0].slot.change == DELETED <==> typ == Deleted)
           && var s := out.deltas[0].entry.service;
           && s.pod == t && s.owner.name == t.name && s.owner.kind == "CronJob"
           && s.owner.data == Data(job.identity, Some(job.spec))
           && (typ == Added ==> s.podSpecId == st.index.nextId)
           && out.st.index ==
                if typ == Added then
                  st.index.(pdm := st.index.pdm[st.index.nextId := []], nextId := st.index.nextId + 1)
                else st.index
  {
  }

  // ----- whole sessions -----

  lemma CronJobInv(namespaces: seq<string>, st: CronState, e: CronEvent)
    requires Inv(st.index)
    ensures Inv(HandleCronJob(namespaces, st, e).st.index)
  {
    HandleInv(namespaces, st.index, CronJobAdded);
  }

  ghost function Reports(namespaces: seq<string>, st: CronState, events: seq<CronEvent>): seq<Delta>
    requires Inv(st.index)
    decreases |events|
  {
    if events == [] then []
    else
      CronJobInv(namespaces, st, events[0]);
      var out := HandleCronJob(namespaces, st, events[0]);
      out.deltas + Reports(namespaces, out.st, events[1..])
  }

  function UidOf(d: Delta): string {
    if d.entry.MicroEntry? then d.entry.service.pod.uid else ""
  }

  function IdOf(d: Delta): int {
    if d.entry.MicroEntry? then d.entry.service.podSpecId else -1
  }

  /** The spec id under which the reports so far know a cron job: that of its last CREATED entry, if no DELETED
      entry follows it. */
  function KnownAs(reports: seq<Delta>, uid: string): Option<int> {
    if reports == [] then None
    else
      var last := reports[|reports| - 1];
      if UidOf(last) != uid || last.slot.change == UPDATED then KnownAs(reports[..|reports| - 1], uid)
      else if last.slot.change == CREATED then Some(IdOf(last))
      else None
  }

  /** How an entry that follows `before` is numbered. */
  predicate NumberedAfter(before: seq<Delta>, d: Delta) {
    && d.entry.MicroEntry? && d.slot.kind == MICROSERVICES
    && (d.slot.change == UPDATED ==> IdOf(d) == KnownAs(before, UidOf(d)).GetOr(0))
    && (d.slot.change == DELETED ==> IdOf(d) == 0)
  }

  ghost predicate Agrees(cronJobIDs: map<string, int>, reports: seq<Delta>) {
    forall uid :: KnownAs(reports, uid) == if uid in cronJobIDs then Some(cronJobIDs[uid]) else None
  }

  lemma KnownAsOneMore(before: seq<Delta>, d: Delta, uid: string)
    ensures KnownAs(before + [d], uid) ==
      if UidOf(d) != uid || d.slot.change == UPDATED then KnownAs(before, uid)
      else if d.slot.change == CREATED then Some(IdOf(d)) else None
  {
    assert (before + [d])[..|before|] == before;
  }

  lemma CronStep(namespaces: seq<string>, st: CronState, e: CronEvent, before: seq<Delta>)
    requires Inv(st.index) && Agrees(st.cronJobIDs, before) && e.CronJobSeen?
    ensures var out := HandleCronJob(namespaces, st, e);
      && |out.deltas| <= 1
      && (out.deltas != [] ==> NumberedAfter(before, out.deltas[0]))
      && Agrees(out.st.cronJobIDs, before + out.deltas)
  {
    var out := HandleCronJob(namespaces, st, e);
    if out.deltas == [] {
      assert before + out.deltas == before;
    } else {
      assert out.deltas == [out.deltas[0]];
      forall uid
        ensures KnownAs(before + out.deltas, uid) ==
          if uid in out.st.cronJobIDs then Some(out.st.cronJobIDs[uid]) else None
      {
        KnownAsOneMore(before, out.deltas[0], uid);
      }
    }
  }

  /** What comes before an entry of the rest of a session. */
  lemma BeforeRest(before: seq<Delta>, first: seq<Delta>, rest: seq<Delta>, i: nat)
    requires |first| <= i <= |first| + |rest|
    ensures before + (first + rest)[..i] == before + first + rest[..i - |first|]
    ensures i < |first| + |rest| ==> (first + rest)[i] == rest[i - |first|]
  {
  }

  /** The events of one session. */
  predicate InSession(events: seq<CronEvent>) {
    forall e <- events :: e.CronJobSeen?
  }

  /** Over a whole session: a cron job that is updated is reported under the id of its CREATED entry in this
      session, or 0 if the session has none; a cron job that is deleted is reported under id 0. */
  lemma {:induction false} CronJobNumbering(
      namespaces: seq<string>, st: CronState, events: seq<CronEvent>, before: seq<Delta>, i: nat)
    requires Inv(st.index) && Agrees(st.cronJobIDs, before) && InSession(events)
    requires i < |Reports(namespaces, st, events)|
    ensures var reports := Reports(namespaces, st, events); NumberedAfter(before + reports[..i], reports[i])
    decreases |events|
  {
    CronStep(namespaces, st, events[0], before);
    CronJobInv(namespaces, st, events[0]);
    var out := HandleCronJob(namespaces, st, events[0]);
    var rest := Reports(namespaces, out.st, events[1..]);
    var reports := Reports(namespaces, st, events);
    assert reports == out.deltas + rest;
    if i < |out.deltas| {
      assert reports[i] == out.deltas[0] && before + reports[..i] == before;
    } else {
      var j := i - |out.deltas|;
      CronJobNumbering(namespaces, out.st, events[1..], before + out.deltas, j);
      BeforeRest(before, out.deltas, rest, i);
      assert reports[i] == rest[j] && before + reports[..i] == before + out.deltas + rest[..j];
    }
  }

  /** No id below `low` is known from the reports. */
  ghost predicate KnownFrom(low: int, reports: seq<Delta>) {
    forall uid :: KnownAs(reports, uid).Some? ==> KnownAs(reports, uid).value >= low
  }

  lemma KnownStep(namespaces: seq<string>, st: CronState, e: CronEvent, before: seq<Delta>, low: int)
    requires Inv(st.index) && KnownFrom(low, before) && low <= st.index.nextId
    ensures KnownFrom(low, before + HandleCronJob(namespaces, st, e).deltas)
  {
    var deltas := HandleCronJob(namespaces, st, e).deltas;
    var after := before + deltas;
    if deltas == [] {
      assert after == before;
    } else {
      assert after[..|after| - 1] == before;
    }
  }

  /** The reports of a session know no id that was issued before it. */
  lemma {:induction false} KnownIdsAreNew(
      namespaces: seq<string>, st: CronState, events: seq<CronEvent>, before: seq<Delta>, i: nat, low: int)
    requires Inv(st.index) && KnownFrom(low, before) && low <= st.index.nextId
    requires i <= |Reports(namespaces, st, events)|
    ensures KnownFrom(low, before + Reports(namespaces, st, events)[..i])
    decreases |events|
  {
    if i == 0 {
      assert before + Reports(namespaces, st, events)[..i] == before;
    } else {
      KnownStep(namespaces, st, events[0], before, low);
      CronJobInv(namespaces, st, events[0]);
      var out := HandleCronJob(namespaces, st, events[0]);
      var rest := Reports(namespaces, out.st, events[1..]);
      KnownIdsAreNew(namespaces, out.st, events[1..], before + out.deltas, i - |out.deltas|, low);
      BeforeRest(before, out.deltas, rest, i);
    }
  }

  /** If any id was issued before the session, no DELETED entry of the session names the microservice that the
      CREATED entry of its cron job named. */
  lemma DeletionNamesAnotherService(namespaces: seq<string>, st: CronState, events: seq<CronEvent>, i: nat)
    requires Inv(st.index) && st.cronJobIDs == map[] && st.index.nextId > 0 && InSession(events)
    requires i < |Reports(namespaces, st, events)| && Reports(namespaces, st, events)[i].slot.change == DELETED
    ensures var reports := Reports(namespaces, st, events);
      KnownAs(reports[..i], UidOf(reports[i])) != Some(IdOf(reports[i]))
  {
    var reports := Reports(namespaces, st, events);
    CronJobNumbering(namespaces, st, events, [], i);
    KnownIdsAreNew(namespaces, st, events, [], i, 1);
    assert [] + reports[..i] == reports[..i];
  }

  // ----- many sessions -----

  predicate IsAdded(e: CronEvent, uid: string) {
    e.CronJobSeen? && e.typ == Added && e.job.template.uid == uid
  }

  /** The clock does not go back. Each session delivers the cron job as added at most once, with its creation time,
      which is before the end of the session. `last`: the end of the session before; `delivered`: the current one
      has delivered it. */
  predicate Redelivered(uid: string, created: Time, last: Time, delivered: bool, events: seq<CronEvent>)
    decreases |events|
  {
    events != [] ==>
      match events[0]
      case CronSessionEnds(now) =>
        last <= now && (delivered ==> created < now) && Redelivered(uid, created, now, false, events[1..])
      case CronJobSeen(_, job) =>
        && (IsAdded(events[0], uid) ==> !delivered && job.template.created == created)
        && Redelivered(uid, created, last, delivered || IsAdded(events[0], uid), events[1..])
  }

  /** How many entries report the cron job created. */
  function TimesCreated(reports: seq<Delta>, uid: string): nat
    decreases |reports|
  {
    if reports == [] then 0
    else (if reports[0].slot.change == CREATED && UidOf(reports[0]) == uid then 1 else 0)
         + TimesCreated(reports[1..], uid)
  }

  lemma CreatedOneMore(d: Delta, reports: seq<Delta>, uid: string)
    ensures TimesCreated([d] + reports, uid) ==
      (if d.slot.change == CREATED && UidOf(d) == uid then 1 else 0) + TimesCreated(reports, uid)
  {
    assert ([d] + reports)[1..] == reports;
  }

  /** `reported`: the cron job was reported created before. Then the current session has delivered it already, or the
      watermark has passed its creation. */
  lemma {:induction false} CreatedOnceFrom(
      namespaces: seq<string>, st: CronState, events: seq<CronEvent>, uid: string, created: Time,
      delivered: bool, reported: bool)
    requires Inv(st.index) && Redelivered(uid, created, st.watermark, delivered, events)
    requires reported ==> delivered || created < st.watermark
    ensures TimesCreated(Reports(namespaces, st, events), uid) <= if reported then 0 else 1
    decreases |events|
  {
    if events != [] {
      var e := events[0];
      CronJobInv(namespaces, st, e);
      var out := HandleCronJob(namespaces, st, e);
      var rest := Reports(namespaces, out.st, events[1..]);
      var delivered' := e.CronJobSeen? && (delivered || IsAdded(e, uid));
      var reported' := reported || (out.deltas != [] && IsAdded(e, uid));
      CreatedOnceFrom(namespaces, out.st, events[1..], uid, created, delivered', reported');
      if out.deltas == [] {
        assert out.deltas + rest == rest;
      } else {
        assert out.deltas == [out.deltas[0]];
        CreatedOneMore(out.deltas[0], rest, uid);
      }
    }
  }

  /** Over any number of sessions, each of which may deliver every cron job again as added, a cron job is reported
      created at most once. */
  lemma CronJobCreatedAtMostOnce(
      namespaces: seq<string>, st: CronState, events: seq<CronEvent>, uid: string, created: Time)
    requires Inv(st.index) && Redelivered(uid, created, st.watermark, false, events)
    ensures TimesCreated(Reports(namespaces, st, events), uid) <= 1
  {
    CreatedOnceFrom(namespaces, st, events, uid, created, false, false);
  }
}

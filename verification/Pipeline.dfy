/** The report pipeline as a step system: one listener, and any number of watchers that append deltas to the
    pending lists and then wake the listener over an unbuffered channel.

    Each append, each preparation of a report, each test of the guard in `informNewDataArrive` and each
    hand-over on a channel is one atomic step; steps of different goroutines interleave in any order. */
module Pipeline {
  import opened Types
  import opened Json
  import opened Report

  /** Where the listener is: about to prepare a report, handing one to the socket, done with the hand-over,
      or waiting for new data. */
  datatype Listener = AtPrepare | Handing(report: Report) | Handed | Waiting

  /** What remains of an event handler: appends, the guarded inform, and the blocking send behind the guard. */
  datatype Action = Append(delta: Delta) | Inform | Send

  /** `touched`: the kinds the handler has appended to since it started. */
  datatype Watcher = Watcher(touched: set<Kind>, script: seq<Action>)

  type Id = nat

  datatype State = State(
    rs: ReportState,
    listener: Listener,
    watchers: map<Id, Watcher>,
    // history: what was handed to the socket, and what was ever appended
    sent: seq<Report>,
    appended: Lists)

  datatype Step =
    | LearnVersion(version: Json)
    | LearnVendor(vendor: string)
    | Prepare(marshalOk: bool)
    | HandOver
    | AfterHandOver
    | Start(id: Id, script: seq<Action>)
    | DoAppend(id: Id)
    | Guard(id: Id)
    | Rendezvous(id: Id)

  /** What does not change during a run: the JSON text of entries and of the installation data. */
  datatype Env = Env(render: Entry -> Json, installation: Json)

  // ----- event handlers -----

  /** The kinds whose handlers append first and inform afterwards: pods and microservices, written by the pod
      and cron job watchers. */
  predicate AppendsFirst(kind: Kind) {
    kind == PODS || kind == MICROSERVICES
  }

  predicate IsAppend(action: Action, appendsFirst: bool) {
    action.Append? && AppendsFirst(action.delta.slot.kind) == appendsFirst
  }

  /** A handler of the pod or cron job watcher: appends, then the inform. */
  predicate AppendThenInform(script: seq<Action>) {
    && |script| >= 2
    && script[|script| - 1] == Inform
    && forall i :: 0 <= i < |script| - 1 ==> IsAppend(script[i], true)
  }

  /** A handler of the node, service, secret or namespace watcher. */
  predicate InformThenAppend(script: seq<Action>) {
    |script| == 2 && script[0] == Inform && IsAppend(script[1], false)
  }

  // ----- steps -----

  function Init(): State {
    State(ReportState(true, true, None, "", NO_ENTRIES), AtPrepare, map[], [], NO_ENTRIES)
  }

  function ScriptOf(s: State, id: Id): seq<Action> {
    if id in s.watchers then s.watchers[id].script else []
  }

  predicate Enabled(s: State, step: Step) {
    match step
    case LearnVersion(_) => true
    case LearnVendor(_) => true
    case Prepare(_) => s.listener.AtPrepare?
    case HandOver => s.listener.Handing?
    case AfterHandOver => s.listener.Handed?
    case Start(id, script) => ScriptOf(s, id) == [] && (AppendThenInform(script) || InformThenAppend(script))
    case DoAppend(id) => ScriptOf(s, id) != [] && ScriptOf(s, id)[0].Append?
    case Guard(id) => ScriptOf(s, id) != [] && ScriptOf(s, id)[0].Inform?
    case Rendezvous(id) => ScriptOf(s, id) != [] && ScriptOf(s, id)[0].Send? && s.listener.Waiting?
  }

  function Advance(s: State, id: Id, touched: set<Kind>, script: seq<Action>): map<Id, Watcher> {
    s.watchers[id := Watcher(touched, script)]
  }

  function Next(env: Env, s: State, step: Step): State
    requires Enabled(s, step)
  {
    match step
    case LearnVersion(version) => s.(rs := s.rs.(version := Some(version)))
    case LearnVendor(vendor) => s.(rs := s.rs.(vendor := vendor))
    case Prepare(marshalOk) =>
      if !CanPrepare(s.rs, marshalOk) then s
      else
        var report := Snapshot(s.rs, env.installation);
        var text := Encode(report, env.render);
        s.(rs := Prepared(s.rs, text), listener := if IsEmptyFirstReport(text) then AtPrepare else Handing(report))
    case HandOver => s.(sent := s.sent + [s.listener.report], listener := Handed)
    case AfterHandOver => s.(rs := s.rs.(firstReport := false), listener := Waiting)
    case Start(id, script) => s.(watchers := Advance(s, id, {}, script))
    case DoAppend(id) =>
      var script := ScriptOf(s, id);
      s.(rs := s.rs.(pending := Appended(s.rs.pending, script[0].delta)),
         appended := Appended(s.appended, script[0].delta),
         watchers := Advance(s, id, s.watchers[id].touched + {script[0].delta.slot.kind}, script[1..]))
    case Guard(id) =>
      var script := ScriptOf(s, id);
      s.(watchers := Advance(s, id, s.watchers[id].touched,
           if GuardHolds(s.rs) then [Send] + script[1..] else script[1..]))
    case Rendezvous(id) =>
      s.(watchers := Advance(s, id, s.watchers[id].touched, ScriptOf(s, id)[1..]), listener := AtPrepare)
  }

  /** A sequence of steps that can be taken one after the other. */
  ghost predicate Possible(env: Env, s: State, steps: seq<Step>)
    decreases |steps|
  {
    steps != [] ==> Enabled(s, steps[0]) && Possible(env, Next(env, s, steps[0]), steps[1..])
  }

  ghost function Run(env: Env, s: State, steps: seq<Step>): State
    requires Possible(env, s, steps)
    decreases |steps|
  {
    if steps == [] then s else Run(env, Next(env, s, steps[0]), steps[1..])
  }

  ghost predicate Reachable(env: Env, s: State) {
    exists steps :: Possible(env, Init(), steps) && Run(env, Init(), steps) == s
  }

  /** A pass through the listener's loop is its steps from the preparation up to the wait, taken without
      interruption. */
  lemma ListenerPassIsSteps(env: Env, s: State, marshalOk: bool)
    requires s.listener.AtPrepare?
    ensures var pass := ListenerPass(s.rs, env.installation, env.render, marshalOk);
      var t := Next(env, s, Prepare(marshalOk));
      && (pass.report.Some? <==> t.listener.Handing?)
      && if pass.report.None? then t == s.(rs := pass.rs)
         else Next(env, Next(env, t, HandOver), AfterHandOver)
              == s.(rs := pass.rs, listener := Waiting, sent := s.sent + [pass.report.value])
  {
    var report := Snapshot(s.rs, env.installation);
    var text := Encode(report, env.render);
    var prepared := Prepared(s.rs, text);
    if !CanPrepare(s.rs, marshalOk) {
      assert Next(env, s, Prepare(marshalOk)) == s;
    } else if IsEmptyFirstReport(text) {
      assert Next(env, s, Prepare(marshalOk)) == s.(rs := prepared);
    } else {
      var t := s.(rs := prepared, listener := Handing(report));
      assert Next(env, s, Prepare(marshalOk)) == t;
      assert Next(env, t, HandOver) == t.(listener := Handed, sent := s.sent + [report]);
    }
  }

  // ----- conservation -----

  /** One list over all the reports that were handed to the socket. */
  function Delivered(sent: seq<Report>, slot: Slot): seq<Entry> {
    if sent == [] then []
    else Delivered(sent[..|sent| - 1], slot) + sent[|sent| - 1].lists.Get(slot)
  }

  function InFlight(listener: Listener, slot: Slot): seq<Entry> {
    if listener.Handing? then listener.report.lists.Get(slot) else []
  }

  /** A list, from the first report handed over to the entries still pending. */
  function Everything(s: State, slot: Slot): seq<Entry> {
    Delivered(s.sent, slot) + InFlight(s.listener, slot) + s.rs.pending.Get(slot)
  }

  ghost predicate Conserved(s: State) {
    forall slot: Slot :: Everything(s, slot) == s.appended.Get(slot)
  }

  lemma PrepareConserves(env: Env, s: State, marshalOk: bool, slot: Slot)
    requires s.listener.AtPrepare?
    ensures Everything(Next(env, s, Prepare(marshalOk)), slot) == Everything(s, slot)
  {
    if CanPrepare(s.rs, marshalOk) {
      var report := Snapshot(s.rs, env.installation);
      assert NO_ENTRIES.Get(slot) == [];
      if IsEmptyFirstReport(Encode(report, env.render)) {
        SkippedReportsAreBare(report, env.render, slot);
      }
    }
  }

  lemma AppendConserves(env: Env, s: State, id: Id, slot: Slot)
    requires Enabled(s, DoAppend(id)) && Everything(s, slot) == s.appended.Get(slot)
    ensures var t := Next(env, s, DoAppend(id)); Everything(t, slot) == t.appended.Get(slot)
  {
    AppendedGet(s.rs.pending, ScriptOf(s, id)[0].delta, slot);
    AppendedGet(s.appended, ScriptOf(s, id)[0].delta, slot);
  }

  lemma NextConserved(env: Env, s: State, step: Step)
    requires Conserved(s) && Enabled(s, step)
    ensures Conserved(Next(env, s, step))
  {
    var t := Next(env, s, step);
    forall slot: Slot
      ensures Everything(t, slot) == t.appended.Get(slot)
    {
      match step
      case Prepare(marshalOk) =>
        PrepareConserves(env, s, marshalOk, slot);
      case HandOver =>
        assert t.sent[..|t.sent| - 1] == s.sent;
        assert Everything(t, slot) == Everything(s, slot);
      case DoAppend(id) =>
        AppendConserves(env, s, id, slot);
      case _ =>
        assert Everything(t, slot) == Everything(s, slot);
    }
  }

  /** FIFO conservation: at every point of every run, each of the 18 lists, read over the reports handed to the
      socket, then the report being handed over, then the pending list, is exactly the sequence of entries ever
      appended to it. */
  lemma {:induction false} NothingLostDuplicatedOrReordered(env: Env, s: State, steps: seq<Step>)
    requires Conserved(s) && Possible(env, s, steps)
    ensures Conserved(Run(env, s, steps))
    decreases |steps|
  {
    if steps == [] {
    } else {
      NextConserved(env, s, steps[0]);
      NothingLostDuplicatedOrReordered(env, Next(env, s, steps[0]), steps[1..]);
    }
  }

  // ----- the first report -----

  /** The first report: it says so, and carries the API version and the installation data. */
  predicate IsFull(r: Report) {
    r.firstReport && r.version.Some? && r.installation.Some?
  }

  /** A later report: deltas and nothing else. */
  predicate IsPlain(r: Report) {
    !r.firstReport && r.version.None? && r.vendor == "" && r.installation.None?
  }

  predicate OneFull(sent: seq<Report>) {
    && (sent != [] ==> IsFull(sent[0]))
    && (forall i :: 1 <= i < |sent| ==> IsPlain(sent[i]))
  }

  /** The aggregate flag is up exactly until the first report is prepared, the first-report flag exactly until
      that report has been handed over. */
  predicate FirstReportInv(s: State) {
    && OneFull(s.sent)
    && (s.rs.aggregate <==> s.sent == [] && s.listener.AtPrepare?)
    && (s.rs.firstReport <==> s.sent == [] || (|s.sent| == 1 && s.listener.Handed?))
    && (s.listener.Handing? ==> if s.sent == [] then IsFull(s.listener.report) else IsPlain(s.listener.report))
    && (!s.rs.aggregate ==> s.rs.version.Some?)
    && (s.listener.Handed? || s.listener.Waiting? ==> s.sent != [])
  }

  lemma NextFirstReport(env: Env, s: State, step: Step)
    requires FirstReportInv(s) && Enabled(s, step)
    ensures FirstReportInv(Next(env, s, step))
  {
  }

  lemma {:induction false} RunFirstReport(env: Env, s: State, steps: seq<Step>)
    requires FirstReportInv(s) && Possible(env, s, steps)
    ensures FirstReportInv(Run(env, s, steps))
    ensures s.rs.aggregate || !Run(env, s, steps).rs.aggregate
    decreases |steps|
  {
    if steps == [] {
    } else {
      NextFirstReport(env, s, steps[0]);
      RunFirstReport(env, Next(env, s, steps[0]), steps[1..]);
    }
  }

  /** In every run, the first report handed over is full and every later one is plain; and an informer whose
      guard fails finds the listener still before its first report, so before it ever waited. */
  lemma FirstReportIsOneShot(env: Env, steps: seq<Step>)
    requires Possible(env, Init(), steps)
    ensures var s := Run(env, Init(), steps);
      && OneFull(s.sent)
      && (s.rs.aggregate ==> s.sent == [])
      && (!GuardHolds(s.rs) ==> s.listener.AtPrepare? && s.sent == [])
  {
    RunFirstReport(env, Init(), steps);
  }

  /** What the listener makes of a preparation. Without a version, or if the marshalling fails, it comes to nothing.
      Otherwise all pending entries are taken, and they are handed over in a report unless the report would say
      "first report" and nothing else. While the aggregate flag is up the report carries the version, the vendor and
      the installation data as well. */
  lemma PreparedReport(env: Env, s: State, marshalOk: bool)
    requires s.listener.AtPrepare?
    ensures var t := Next(env, s, Prepare(marshalOk));
      if s.rs.version.None? || !marshalOk then t == s
      else
        && t.rs.pending == NO_ENTRIES && t.rs.version == s.rs.version && t.rs.vendor == s.rs.vendor
        && t.rs.firstReport == s.rs.firstReport && t.sent == s.sent && t.watchers == s.watchers
        && if s.rs.firstReport && !s.rs.aggregate && s.rs.pending == NO_ENTRIES then t.listener.AtPrepare?
           else
             && t.listener.Handing? && !t.rs.aggregate
             && var r := t.listener.report;
             && r.firstReport == s.rs.firstReport && r.lists == s.rs.pending
             && r.version == (if s.rs.aggregate then s.rs.version else None)
             && r.vendor == (if s.rs.aggregate then s.rs.vendor else "")
             && r.installation == (if s.rs.aggregate then Some(env.installation) else None)
  {
    LengthTestIsExact(Snapshot(s.rs, env.installation), env.render);
  }

  /** The version learned last. */
  function LastVersion(version: Option<Json>, steps: seq<Step>): Option<Json>
    decreases |steps|
  {
    if steps == [] then version
    else LastVersion(if steps[0].LearnVersion? then Some(steps[0].version) else version, steps[1..])
  }

  function LastVendor(vendor: string, steps: seq<Step>): string
    decreases |steps|
  {
    if steps == [] then vendor
    else LastVendor(if steps[0].LearnVendor? then steps[0].vendor else vendor, steps[1..])
  }

  lemma {:induction false} LearnedLast(env: Env, s: State, steps: seq<Step>)
    requires Possible(env, s, steps)
    ensures var t := Run(env, s, steps);
      t.rs.version == LastVersion(s.rs.version, steps) && t.rs.vendor == LastVendor(s.rs.vendor, steps)
    decreases |steps|
  {
    if steps != [] {
      LearnedLast(env, Next(env, s, steps[0]), steps[1..]);
    }
  }

  /** The report is the first one, handed over or about to be. */
  predicate IsFirst(s: State, r: Report) {
    if s.sent == [] then s.listener == Handing(r) else s.sent[0] == r
  }

  lemma {:induction false} FirstStays(env: Env, s: State, steps: seq<Step>, r: Report)
    requires Possible(env, s, steps) && IsFirst(s, r)
    ensures IsFirst(Run(env, s, steps), r)
    decreases |steps|
  {
    if steps != [] {
      FirstStays(env, Next(env, s, steps[0]), steps[1..], r);
    }
  }

  lemma AllGet(a: Lists, b: Lists)
    requires forall slot: Slot :: a.Get(slot) == b.Get(slot)
    ensures a == b
  {
    forall kind: Kind ensures a.Of(kind) == b.Of(kind) {
      assert forall change: Change ::
        a.Get(Slot(kind, change)) == a.Of(kind).Get(change) && b.Get(Slot(kind, change)) == b.Of(kind).Get(change);
      assert a.Of(kind).Get(CREATED) == b.Of(kind).Get(CREATED);
      assert a.Of(kind).Get(DELETED) == b.Of(kind).Get(DELETED);
      assert a.Of(kind).Get(UPDATED) == b.Of(kind).Get(UPDATED);
    }
    assert a.Of(NODE) == b.Of(NODE) && a.Of(SERVICES) == b.Of(SERVICES) && a.Of(PODS) == b.Of(PODS);
    assert a.Of(MICROSERVICES) == b.Of(MICROSERVICES) && a.Of(SECRETS) == b.Of(SECRETS);
    assert a.Of(NAMESPACES) == b.Of(NAMESPACES);
  }

  /** In every run, the first report carries the version and the vendor last learned before its preparation, the
      installation data, and every entry that was ever appended before it. */
  lemma FirstReportSays(env: Env, before: seq<Step>, after: seq<Step>)
    requires Possible(env, Init(), before)
    requires var s := Run(env, Init(), before);
      && s.listener.AtPrepare? && s.rs.aggregate && s.rs.version.Some?
      && Possible(env, Next(env, s, Prepare(true)), after)
    ensures var s := Run(env, Init(), before);
      var first := Report(true, LastVersion(None, before), LastVendor("", before), s.appended, Some(env.installation));
      IsFirst(Run(env, Next(env, s, Prepare(true)), after), first)
  {
    var s := Run(env, Init(), before);
    RunFirstReport(env, Init(), before);
    assert Conserved(Init());
    NothingLostDuplicatedOrReordered(env, Init(), before);
    assert forall slot: Slot :: Everything(s, slot) == s.rs.pending.Get(slot);
    AllGet(s.rs.pending, s.appended);
    LearnedLast(env, Init(), before);
    PreparedReport(env, s, true);
    var t := Next(env, s, Prepare(true));
    FirstStays(env, t, after, t.listener.report);
  }

  // ----- nobody blocks too early -----

  /** A handler blocks only behind the guard, and only once the version is known. */
  predicate BlocksLate(w: Watcher, rs: ReportState) {
    && (forall i :: 1 <= i < |w.script| ==> w.script[i] != Send)
    && (w.script != [] && w.script[0] == Send ==> rs.version.Some?)
  }

  ghost predicate AllBlockLate(s: State) {
    forall id <- s.watchers :: BlocksLate(s.watchers[id], s.rs)
  }

  lemma NextBlocksLate(env: Env, s: State, step: Step)
    requires AllBlockLate(s) && FirstReportInv(s) && Enabled(s, step)
    ensures AllBlockLate(Next(env, s, step))
  {
  }

  lemma {:induction false} RunBlocksLate(env: Env, s: State, steps: seq<Step>)
    requires AllBlockLate(s) && FirstReportInv(s) && Possible(env, s, steps)
    ensures AllBlockLate(Run(env, s, steps))
    decreases |steps|
  {
    if steps != [] {
      NextBlocksLate(env, s, steps[0]);
      NextFirstReport(env, s, steps[0]);
      RunBlocksLate(env, Next(env, s, steps[0]), steps[1..]);
    }
  }

  /** In every reachable state the guard lets a handler through exactly if the API version is known; and no handler
      is blocked on the channel before that. */
  lemma GuardIsVersionKnown(env: Env, s: State, id: Id)
    requires Reachable(env, s)
    ensures GuardHolds(s.rs) <==> s.rs.version.Some?
    ensures ScriptOf(s, id) != [] && ScriptOf(s, id)[0] == Send ==> s.rs.version.Some?
    ensures Enabled(s, Guard(id)) ==>
      var script, next := ScriptOf(s, id), ScriptOf(Next(env, s, Guard(id)), id);
      next == if s.rs.version.Some? then [Send] + script[1..] else script[1..]
  {
    var steps :| Possible(env, Init(), steps) && Run(env, Init(), steps) == s;
    RunFirstReport(env, Init(), steps);
    RunBlocksLate(env, Init(), steps);
  }

  // ----- no stranded deltas -----

  predicate NoneOf(lists: Lists, kind: Kind) {
    lists.Of(kind) == NO_CHANGES
  }

  predicate EndsInInform(script: seq<Action>) {
    script != [] && (script[|script| - 1] == Inform || script[|script| - 1] == Send)
  }

  /** The watcher has appended a delta of the kind and its inform is not complete. */
  predicate Informing(w: Watcher, kind: Kind) {
    kind in w.touched && EndsInInform(w.script)
  }

  ghost predicate SomeInforming(s: State, kind: Kind) {
    exists id <- s.watchers :: Informing(s.watchers[id], kind)
  }

  /** A delta of the kind is pending behind a waiting listener only while some watcher that appended to that
      kind is still informing. */
  ghost predicate NotStranded(s: State, kind: Kind) {
    s.listener.Waiting? && !NoneOf(s.rs.pending, kind) ==> SomeInforming(s, kind)
  }

  /** What can remain of a handler that appends first, and of one that informs first. */
  predicate Rest(script: seq<Action>) {
    || (EndsInInform(script) && forall i :: 0 <= i < |script| - 1 ==> IsAppend(script[i], true))
    || script == []
    || (|script| <= 2 && IsAppend(script[|script| - 1], false) && (|script| == 2 ==> !script[0].Append?))
  }

  /** No delta is left behind while the listener is anywhere past its preparation. */
  ghost predicate WakeInv(s: State, kind: Kind) {
    && FirstReportInv(s)
    && (!s.listener.AtPrepare? && !NoneOf(s.rs.pending, kind) ==> SomeInforming(s, kind))
    && (forall id <- s.watchers :: Rest(s.watchers[id].script))
  }

  lemma RestOfScript(script: seq<Action>)
    requires Rest(script) && script != []
    ensures Rest(script[1..])
    ensures script[0] == Inform ==> Rest([Send] + script[1..])
    ensures script[0].Append? && AppendsFirst(script[0].delta.slot.kind) ==> EndsInInform(script[1..])
    ensures EndsInInform(script) && script[0].Append? ==> EndsInInform(script[1..])
  {
  }

  lemma NextRest(env: Env, s: State, step: Step)
    requires Enabled(s, step) && forall id <- s.watchers :: Rest(s.watchers[id].script)
    ensures var t := Next(env, s, step); forall id <- t.watchers :: Rest(t.watchers[id].script)
  {
    if step.DoAppend? || step.Guard? || step.Rendezvous? {
      RestOfScript(ScriptOf(s, step.id));
    } else if step.Start? && AppendThenInform(step.script) {
      assert Rest(step.script);
    }
  }

  /** Only the rendezvous, which wakes the listener, completes an inform that the guard lets through. */
  lemma NextInforming(env: Env, s: State, step: Step, kind: Kind)
    requires Enabled(s, step) && (forall id <- s.watchers :: Rest(s.watchers[id].script))
    requires SomeInforming(s, kind) && !step.Rendezvous? && (step.Guard? ==> GuardHolds(s.rs))
    ensures SomeInforming(Next(env, s, step), kind)
  {
    var t := Next(env, s, step);
    var id :| id in s.watchers && Informing(s.watchers[id], kind);
    if (step.DoAppend? || step.Guard?) && step.id == id {
      RestOfScript(ScriptOf(s, id));
    }
    assert id in t.watchers && Informing(t.watchers[id], kind);
  }

  /** A delta that is pending after a step, with the listener past its preparation, was so before, or has just
      been appended. */
  lemma NextPending(env: Env, s: State, step: Step, kind: Kind)
    requires Enabled(s, step)
    ensures var t := Next(env, s, step);
      !t.listener.AtPrepare? && !NoneOf(t.rs.pending, kind) ==>
        && !step.Rendezvous?
        && (|| (!s.listener.AtPrepare? && !NoneOf(s.rs.pending, kind))
            || (step.DoAppend? && ScriptOf(s, step.id)[0].delta.slot.kind == kind))
  {
  }

  lemma NextWake(env: Env, s: State, step: Step, kind: Kind)
    requires AppendsFirst(kind) && WakeInv(s, kind) && Enabled(s, step)
    ensures WakeInv(Next(env, s, step), kind)
  {
    var t := Next(env, s, step);
    NextFirstReport(env, s, step);
    NextRest(env, s, step);
    NextPending(env, s, step, kind);
    if !t.listener.AtPrepare? && !NoneOf(t.rs.pending, kind) {
      if step.DoAppend? && ScriptOf(s, step.id)[0].delta.slot.kind == kind {
        RestOfScript(ScriptOf(s, step.id));
        assert Informing(t.watchers[step.id], kind);
      } else {
        NextInforming(env, s, step, kind);
      }
    }
  }

  lemma {:induction false} RunWake(env: Env, s: State, steps: seq<Step>, kind: Kind)
    requires AppendsFirst(kind) && WakeInv(s, kind) && Possible(env, s, steps)
    ensures WakeInv(Run(env, s, steps), kind)
    decreases |steps|
  {
    if steps == [] {
    } else {
      NextWake(env, s, steps[0], kind);
      RunWake(env, Next(env, s, steps[0]), steps[1..], kind);
    }
  }

  lemma {:induction false} PossibleOneMore(env: Env, s: State, steps: seq<Step>, step: Step)
    requires Possible(env, s, steps) && Enabled(Run(env, s, steps), step)
    ensures Possible(env, s, steps + [step])
    ensures Run(env, s, steps + [step]) == Next(env, Run(env, s, steps), step)
    decreases |steps|
  {
    if steps == [] {
      assert steps + [step] == [step];
    } else {
      PossibleOneMore(env, Next(env, s, steps[0]), steps[1..], step);
      assert (steps + [step])[1..] == steps[1..] + [step];
    }
  }

  lemma ReachableNext(env: Env, s: State, step: Step)
    requires Reachable(env, s) && Enabled(s, step)
    ensures Reachable(env, Next(env, s, step))
  {
    var steps :| Possible(env, Init(), steps) && Run(env, Init(), steps) == s;
    PossibleOneMore(env, Init(), steps, step);
  }

  lemma Take(env: Env, s: State, step: Step) returns (t: State)
    requires Reachable(env, s) && Enabled(s, step)
    ensures Reachable(env, t) && t == Next(env, s, step)
  {
    ReachableNext(env, s, step);
    t := Next(env, s, step);
  }

  /** The listener goes once around from its preparation, with nothing pending. */
  lemma ListenerRound(env: Env, s: State) returns (t: State)
    requires Reachable(env, s) && s.listener.AtPrepare?
    requires s.rs.version.Some? && (s.rs.firstReport ==> s.rs.aggregate) && s.rs.pending == NO_ENTRIES
    ensures Reachable(env, t) && t.listener.Waiting? && t.watchers == s.watchers
    ensures t.rs == s.rs.(firstReport := false, aggregate := false)
  {
    LengthTestIsExact(Snapshot(s.rs, env.installation), env.render);
    t := Take(env, s, Prepare(true));
    assert t.listener.Handing? && t.rs == s.rs.(aggregate := false);
    t := Take(env, t, HandOver);
    t := Take(env, t, AfterHandOver);
  }

  /** A handler that informs first wakes the listener before there is anything to find. */
  lemma EarlyWakeUp(env: Env, s: State, delta: Delta) returns (t: State)
    requires !AppendsFirst(delta.slot.kind)
    requires Reachable(env, s) && s.listener.Waiting? && s.watchers == map[] && GuardHolds(s.rs)
    ensures Reachable(env, t) && t.listener.AtPrepare? && t.rs == s.rs
    ensures t.watchers == map[0 := Watcher({}, [Append(delta)])]
  {
    var script := [Inform, Append(delta)];
    t := Take(env, s, Start(0, script));
    assert t.watchers == map[0 := Watcher({}, script)];
    t := Take(env, t, Guard(0));
    assert [Send] + script[1..] == [Send, Append(delta)];
    assert t.watchers == map[0 := Watcher({}, [Send, Append(delta)])];
    t := Take(env, t, Rendezvous(0));
    assert [Send, Append(delta)][1..] == [Append(delta)];
  }

  /** A run of a handler that informs first: the listener takes the wake-up, finds nothing, sends an empty
      report and waits again; then the delta is appended. Nobody is left to wake the listener for it. */
  lemma StrandedDelta(env: Env, delta: Delta) returns (s: State)
    requires !AppendsFirst(delta.slot.kind)
    ensures Reachable(env, s) && s.listener.Waiting? && s.rs.pending.Get(delta.slot) == [delta.entry]
    ensures s.watchers == map[0 := Watcher({delta.slot.kind}, [])]
  {
    assert Possible(env, Init(), []) && Run(env, Init(), []) == Init();
    s := Take(env, Init(), LearnVersion(Str("")));
    s := ListenerRound(env, s);
    s := EarlyWakeUp(env, s, delta);
    s := ListenerRound(env, s);
    assert ScriptOf(s, 0) == [Append(delta)] && [Append(delta)][1..] == [];
    assert s.watchers[0].touched + {delta.slot.kind} == {delta.slot.kind};
    s := Take(env, s, DoAppend(0));
    AppendedGet(NO_ENTRIES, delta, delta.slot);
  }

  /** For which kinds no delta is ever stranded: exactly those whose handlers append before they inform. */
  lemma NoStrandedDeltas(env: Env, kind: Kind)
    ensures (forall s: State :: Reachable(env, s) ==> NotStranded(s, kind)) <==> AppendsFirst(kind)
  {
    if AppendsFirst(kind) {
      forall s: State | Reachable(env, s)
        ensures NotStranded(s, kind)
      {
        var steps :| Possible(env, Init(), steps) && Run(env, Init(), steps) == s;
        RunWake(env, Init(), steps, kind);
      }
    } else {
      var delta := Delta(Slot(kind, CREATED), OtherEntry(""));
      var s := StrandedDelta(env, delta);
      assert !NotStranded(s, kind);
    }
  }

  /** When the listener waits and no handler that appended to the kind is still informing, everything ever
      appended to the kind's lists has been handed to the socket, in order. */
  lemma QuietMeansDelivered(env: Env, s: State, slot: Slot)
    requires AppendsFirst(slot.kind) && Reachable(env, s)
    requires s.listener.Waiting? && !SomeInforming(s, slot.kind)
    ensures Delivered(s.sent, slot) == s.appended.Get(slot)
  {
    var steps :| Possible(env, Init(), steps) && Run(env, Init(), steps) == s;
    assert Conserved(Init());
    NothingLostDuplicatedOrReordered(env, Init(), steps);
    NoStrandedDeltas(env, slot.kind);
    assert NotStranded(s, slot.kind);
    assert Everything(s, slot) == Delivered(s.sent, slot);
  }
}

/** The pod watcher and the report pipeline together: what the receiver of the reports knows about the pods and
    microservices the collector tracks. */
module System {
  import opened Types
  import opened Entries
  import P = Pipeline
  import W = PodWatch
  import opened PodIndex
  import H = PodHistory
  import opened PodBalance
  import opened PodServices
  import PodReports

  /** The pod watcher is the pipeline's watcher 0. `events`: the history of what it handled, and of what others did
      to the index and the ids in between. */
  datatype State = State(pipe: P.State, index: W.State, events: seq<W.Event>)

  datatype Step =
    | PodTurn(event: W.Event)
    | OtherIdUse(event: W.Event)
    | Pipe(step: P.Step)

  /** `otherIds`: the spec ids under which other watchers report microservices. */
  datatype Env = Env(pipe: P.Env, namespaces: seq<string>, otherIds: set<int>)

  const POD_WATCHER: P.Id := 0

  /** The script of an event handler that reports these entries. */
  function Script(deltas: seq<Delta>): seq<P.Action> {
    if deltas == [] then [P.Inform] else [P.Append(deltas[0])] + Script(deltas[1..])
  }

  /** What a script still has to append. */
  function Remaining(script: seq<P.Action>): seq<Delta> {
    if script == [] then []
    else (if script[0].Append? then [script[0].delta] else []) + Remaining(script[1..])
  }

  /** An entry of another watcher: not about a pod, and about a microservice only under one of the other ids. */
  predicate IsForeign(env: Env, d: Delta) {
    && d.slot.kind != PODS
    && (d.slot.kind == MICROSERVICES ==> d.entry.MicroEntry? && d.entry.service.podSpecId in env.otherIds)
  }

  predicate AllForeign(env: Env, script: seq<P.Action>) {
    forall i :: 0 <= i < |script| && script[i].Append? ==> IsForeign(env, script[i].delta)
  }

  /** A pod name, or a spec id that only the pod watcher reports under. */
  predicate IsOwn(env: Env, subject: Subject) {
    subject.SpecId? ==> subject.id !in env.otherIds
  }

  function Init(): State {
    State(P.Init(), W.Start(), [])
  }

  predicate Busy(s: State) {
    P.ScriptOf(s.pipe, POD_WATCHER) != []
  }

  /** The pod watcher takes the next event when it is done with the last one; cron job watchers and others use
      the index and the ids at any time. */
  ghost predicate Enabled(env: Env, s: State, step: Step) {
    && W.Inv(s.index)
    && match step
       case PodTurn(e) =>
         && !e.CronJobAdded? && !e.IdTaken? && !Busy(s)
         && W.OrderOk(s.index, e) && !W.Handle(env.namespaces, s.index, e).panicked
       case OtherIdUse(e) => e.CronJobAdded? || e.IdTaken?
       case Pipe(p) =>
         P.Enabled(s.pipe, p) && (p.Start? ==> p.id != POD_WATCHER && AllForeign(env, p.script))
  }

  ghost function Next(env: Env, s: State, step: Step): State
    requires Enabled(env, s, step)
  {
    match step
    case PodTurn(e) =>
      var out := W.Handle(env.namespaces, s.index, e);
      ReportsPods(env.namespaces, s.index, e);
      State(if out.deltas == [] then s.pipe else P.Next(env.pipe, s.pipe, P.Start(POD_WATCHER, Script(out.deltas))),
            out.st, s.events + [e])
    case OtherIdUse(e) => State(s.pipe, W.Handle(env.namespaces, s.index, e).st, s.events + [e])
    case Pipe(p) => s.(pipe := P.Next(env.pipe, s.pipe, p))
  }

  ghost predicate Possible(env: Env, s: State, steps: seq<Step>)
    decreases |steps|
  {
    steps != [] ==> Enabled(env, s, steps[0]) && Possible(env, Next(env, s, steps[0]), steps[1..])
  }

  ghost function Run(env: Env, s: State, steps: seq<Step>): State
    requires Possible(env, s, steps)
    decreases |steps|
  {
    if steps == [] then s else Run(env, Next(env, s, steps[0]), steps[1..])
  }

  // ----- the handlers' scripts -----

  predicate PodOrMicro(deltas: seq<Delta>) {
    forall i :: 0 <= i < |deltas| ==> P.AppendsFirst(deltas[i].slot.kind)
  }

  lemma {:induction false} ScriptIsProper(deltas: seq<Delta>)
    requires PodOrMicro(deltas)
    ensures P.EndsInInform(Script(deltas)) && |Script(deltas)| == |deltas| + 1
    ensures var s := Script(deltas); s[|s| - 1] == P.Inform
    ensures forall i :: 0 <= i < |deltas| ==> P.IsAppend(Script(deltas)[i], true)
    ensures Remaining(Script(deltas)) == deltas
  {
    if deltas == [] {
      assert Script(deltas)[1..] == [];
    } else {
      ScriptIsProper(deltas[1..]);
      assert Script(deltas)[1..] == Script(deltas[1..]);
    }
  }

  /** Whatever the event, its entries form a script of the pipeline. */
  lemma ReportsPods(namespaces: seq<string>, st: W.State, e: W.Event)
    requires W.Inv(st) && W.OrderOk(st, e)
    ensures var deltas := W.Handle(namespaces, st, e).deltas;
      PodOrMicro(deltas) && (deltas != [] ==> P.AppendThenInform(Script(deltas)))
  {
    var deltas := W.Handle(namespaces, st, e).deltas;
    assert PodOrMicro(deltas);
    ScriptIsProper(deltas);
  }

  // ----- everything the pod watcher decides to report is on its way -----

  function SlotOf(subject: Subject, change: Change): Slot {
    Slot(KindOf(subject), change)
  }

  /** What was appended about the subject and what the pod watcher still has to append. */
  function OnItsWay(s: State, subject: Subject, change: Change): nat {
    Count(s.pipe.appended.Get(SlotOf(subject, change)), subject)
    + Reported(Remaining(P.ScriptOf(s.pipe, POD_WATCHER)), change, subject)
  }

  ghost predicate OthersAreForeign(env: Env, s: State) {
    forall id <- s.pipe.watchers :: id != POD_WATCHER ==>
      PODS !in s.pipe.watchers[id].touched && AllForeign(env, s.pipe.watchers[id].script)
  }

  lemma PipeIsForeign(env: Env, s: State, p: P.Step)
    requires Enabled(env, s, Pipe(p)) && OthersAreForeign(env, s)
    ensures OthersAreForeign(env, Next(env, s, Pipe(p)))
  {
    if p.DoAppend? || p.Guard? || p.Rendezvous? {
      var script := P.ScriptOf(s.pipe, p.id);
      assert forall i :: 0 <= i < |script[1..]| ==> script[1..][i] == script[i + 1];
    }
  }

  lemma AppendedCount(l: Lists, d: Delta, subject: Subject, change: Change)
    ensures Count(Appended(l, d).Get(SlotOf(subject, change)), subject) ==
      Count(l.Get(SlotOf(subject, change)), subject) + One(d, change, subject)
  {
    var slot := SlotOf(subject, change);
    AppendedGet(l, d, slot);
    if d.slot == slot {
      CountConcat(l.Get(slot), [d.entry], subject);
      CountOne(d.entry, subject);
    }
  }

  lemma RemainingCount(script: seq<P.Action>, subject: Subject, change: Change)
    requires script != []
    ensures Reported(Remaining(script), change, subject) ==
      (if script[0].Append? then One(script[0].delta, change, subject) else 0)
      + Reported(Remaining(script[1..]), change, subject)
  {
    var rest := Remaining(script[1..]);
    if script[0].Append? {
      ReportedOne(script[0].delta, change, subject);
      ReportedConcat([script[0].delta], rest, change, subject);
      assert Remaining(script) == [script[0].delta] + rest;
    } else {
      assert Remaining(script) == rest;
    }
  }

  /** An append moves one entry from what the script still has to append to what was appended. */
  lemma AppendOnItsWay(env: Env, s: State, p: P.Step, subject: Subject, change: Change)
    requires p.DoAppend? && Enabled(env, s, Pipe(p)) && OthersAreForeign(env, s) && IsOwn(env, subject)
    ensures OnItsWay(Next(env, s, Pipe(p)), subject, change) == OnItsWay(s, subject, change)
  {
    var script := P.ScriptOf(s.pipe, p.id);
    var d := script[0].delta;
    var t := Next(env, s, Pipe(p));
    AppendedCount(s.pipe.appended, d, subject, change);
    if p.id == POD_WATCHER {
      RemainingCount(script, subject, change);
      assert P.ScriptOf(t.pipe, POD_WATCHER) == script[1..];
    } else {
      assert P.ScriptOf(t.pipe, POD_WATCHER) == P.ScriptOf(s.pipe, POD_WATCHER);
      assert IsForeign(env, d);
    }
  }

  lemma PipeOnItsWay(env: Env, s: State, p: P.Step, subject: Subject, change: Change)
    requires Enabled(env, s, Pipe(p)) && OthersAreForeign(env, s) && IsOwn(env, subject)
    ensures OnItsWay(Next(env, s, Pipe(p)), subject, change) == OnItsWay(s, subject, change)
  {
    if p.DoAppend? {
      AppendOnItsWay(env, s, p, subject, change);
    } else if p.Guard? || p.Rendezvous? {
      var script := P.ScriptOf(s.pipe, p.id);
      assert ([P.Send] + script[1..])[1..] == script[1..];
      assert Remaining([P.Send] + script[1..]) == Remaining(script[1..]) == Remaining(script);
    }
  }

  lemma TurnPipe(env: Env, s: State, e: W.Event)
    requires Enabled(env, s, PodTurn(e))
    ensures Remaining(P.ScriptOf(s.pipe, POD_WATCHER)) == []
    ensures var t := Next(env, s, PodTurn(e));
      && t.pipe.appended == s.pipe.appended
      && Remaining(P.ScriptOf(t.pipe, POD_WATCHER)) == W.Handle(env.namespaces, s.index, e).deltas
      && (forall id :: id != POD_WATCHER ==>
            (id in t.pipe.watchers <==> id in s.pipe.watchers)
            && (id in s.pipe.watchers ==> t.pipe.watchers[id] == s.pipe.watchers[id]))
  {
    ReportsPods(env.namespaces, s.index, e);
    ScriptIsProper(W.Handle(env.namespaces, s.index, e).deltas);
  }

  lemma TurnOnItsWay(env: Env, s: State, e: W.Event, subject: Subject, change: Change)
    requires Enabled(env, s, PodTurn(e))
    ensures OnItsWay(Next(env, s, PodTurn(e)), subject, change) ==
      OnItsWay(s, subject, change) + Reported(W.Handle(env.namespaces, s.index, e).deltas, change, subject)
  {
    TurnPipe(env, s, e);
    NothingReported(subject);
  }

  // ----- runs -----

  /** The index is that of the events handled, and what they report is on its way. */
  ghost predicate IndexSound(env: Env, s: State) {
    && H.Possible(env.namespaces, W.Start(), s.events)
    && s.index == H.Run(env.namespaces, W.Start(), s.events)
    && forall subject: Subject, change: Change :: IsOwn(env, subject) ==>
         OnItsWay(s, subject, change) == Reported(H.Emitted(env.namespaces, W.Start(), s.events), change, subject)
  }

  ghost predicate PipeSound(env: Env, s: State) {
    && P.Conserved(s.pipe) && P.WakeInv(s.pipe, PODS) && P.WakeInv(s.pipe, MICROSERVICES)
    && OthersAreForeign(env, s)
  }

  /** An event joins the history, and its entries what is on its way. */
  lemma IndexStep(env: Env, s: State, e: W.Event, t: State)
    requires IndexSound(env, s)
    requires W.OrderOk(s.index, e) && !W.Handle(env.namespaces, s.index, e).panicked
    requires t.index == W.Handle(env.namespaces, s.index, e).st && t.events == s.events + [e]
    requires forall subject: Subject, change: Change ::
      OnItsWay(t, subject, change) ==
        OnItsWay(s, subject, change) + Reported(W.Handle(env.namespaces, s.index, e).deltas, change, subject)
    ensures IndexSound(env, t)
  {
    H.OneMoreEvent(env.namespaces, W.Start(), s.events, e);
    var emitted := H.Emitted(env.namespaces, W.Start(), s.events);
    var deltas := W.Handle(env.namespaces, s.index, e).deltas;
    forall subject: Subject, change: Change | IsOwn(env, subject)
      ensures OnItsWay(t, subject, change) == Reported(emitted + deltas, change, subject)
    {
      ReportedConcat(emitted, deltas, change, subject);
    }
  }

  lemma StepIndexSound(env: Env, s: State, step: Step)
    requires IndexSound(env, s) && PipeSound(env, s) && Enabled(env, s, step)
    ensures IndexSound(env, Next(env, s, step))
  {
    var t := Next(env, s, step);
    match step
    case PodTurn(e) =>
      forall subject: Subject, change: Change
        ensures OnItsWay(t, subject, change) ==
          OnItsWay(s, subject, change) + Reported(W.Handle(env.namespaces, s.index, e).deltas, change, subject)
      {
        TurnOnItsWay(env, s, e, subject, change);
      }
      IndexStep(env, s, e, t);
    case OtherIdUse(e) =>
      assert W.Handle(env.namespaces, s.index, e).deltas == [];
      forall subject: Subject, change: Change
        ensures Reported([], change, subject) == 0 && OnItsWay(t, subject, change) == OnItsWay(s, subject, change)
      {
        NothingReported(subject);
      }
      IndexStep(env, s, e, t);
    case Pipe(p) =>
      forall subject: Subject, change: Change | IsOwn(env, subject)
        ensures OnItsWay(t, subject, change) == OnItsWay(s, subject, change)
      {
        PipeOnItsWay(env, s, p, subject, change);
      }
  }

  lemma PipeKeeps(env: Env, s: State, p: P.Step)
    requires P.Conserved(s.pipe) && P.WakeInv(s.pipe, PODS) && P.WakeInv(s.pipe, MICROSERVICES)
    requires P.Enabled(s.pipe, p)
    ensures var t := P.Next(env.pipe, s.pipe, p);
      P.Conserved(t) && P.WakeInv(t, PODS) && P.WakeInv(t, MICROSERVICES)
  {
    P.NextConserved(env.pipe, s.pipe, p);
    P.NextWake(env.pipe, s.pipe, p, PODS);
    P.NextWake(env.pipe, s.pipe, p, MICROSERVICES);
  }

  lemma StepPipeSound(env: Env, s: State, step: Step)
    requires PipeSound(env, s) && Enabled(env, s, step)
    ensures PipeSound(env, Next(env, s, step))
  {
    match step
    case PodTurn(e) =>
      ReportsPods(env.namespaces, s.index, e);
      var deltas := W.Handle(env.namespaces, s.index, e).deltas;
      if deltas != [] {
        PipeKeeps(env, s, P.Start(POD_WATCHER, Script(deltas)));
      }
      TurnPipe(env, s, e);
    case OtherIdUse(e) =>
    case Pipe(p) =>
      PipeKeeps(env, s, p);
      PipeIsForeign(env, s, p);
  }

  /** In every interleaving of the listener, the pod watcher and any other watchers: the index is that of the events
      handled so far, and what they report is on its way. */
  lemma {:induction false} RunSound(env: Env, s: State, steps: seq<Step>)
    requires IndexSound(env, s) && PipeSound(env, s) && Possible(env, s, steps)
    ensures IndexSound(env, Run(env, s, steps)) && PipeSound(env, Run(env, s, steps))
    decreases |steps|
  {
    if steps == [] {
    } else {
      StepIndexSound(env, s, steps[0]);
      StepPipeSound(env, s, steps[0]);
      RunSound(env, Next(env, s, steps[0]), steps[1..]);
    }
  }

  lemma InitSound(env: Env)
    ensures IndexSound(env, Init()) && PipeSound(env, Init())
  {
    forall subject: Subject, change: Change
      ensures OnItsWay(Init(), subject, change) == 0 == Reported([], change, subject)
    {
    }
  }

  // ----- what is in the reports -----

  /** In every interleaving, whenever the pod watcher is between events: over the reports handed to the socket, the
      one being handed over and the pending lists, a pod name or spec id is counted exactly as often as the events
      handled so far report it. */
  lemma ReportsCount(env: Env, steps: seq<Step>, subject: Subject, change: Change)
    requires Possible(env, Init(), steps) && !Busy(Run(env, Init(), steps)) && IsOwn(env, subject)
    ensures var s := Run(env, Init(), steps);
      && H.Possible(env.namespaces, W.Start(), s.events)
      && s.index == H.Run(env.namespaces, W.Start(), s.events)
      && Count(P.Everything(s.pipe, SlotOf(subject, change)), subject)
         == Reported(H.Emitted(env.namespaces, W.Start(), s.events), change, subject)
  {
    InitSound(env);
    RunSound(env, Init(), steps);
    var s := Run(env, Init(), steps);
    NothingReported(subject);
    assert OnItsWay(s, subject, change) == Count(s.pipe.appended.Get(SlotOf(subject, change)), subject);
    assert P.Everything(s.pipe, SlotOf(subject, change)) == s.pipe.appended.Get(SlotOf(subject, change));
  }

  /** CREATED minus DELETED entries of a name over the reports handed to the socket, the report being handed over and
      the pending lists. */
  function InReports(s: State, name: string): int {
    Count(P.Everything(s.pipe, Slot(PODS, CREATED)), PodName(name))
    - Count(P.Everything(s.pipe, Slot(PODS, DELETED)), PodName(name))
  }

  /** So, whenever the pod watcher is between events, the entries of a name balance to the number of buckets that hold
      it and the surplus of its deletions; and if the entries of every event told what it does to the name, to one
      if the name is tracked and zero if not. */
  lemma ReportsBalance(env: Env, steps: seq<Step>, name: string)
    requires Possible(env, Init(), steps) && !Busy(Run(env, Init(), steps))
    ensures var s := Run(env, Init(), steps);
      && H.Possible(env.namespaces, W.Start(), s.events)
      && InReports(s, name) == |Holders(s.index.pdm, name)| + TotalSurplus(env.namespaces, W.Start(), s.events, name)
      && (AllTold(env.namespaces, W.Start(), s.events, name) ==>
            InReports(s, name) == TrackedCount(s.index.pdm, name))
  {
    var s := Run(env, Init(), steps);
    ReportsCount(env, steps, PodName(name), CREATED);
    ReportsCount(env, steps, PodName(name), DELETED);
    FromStart(env.namespaces, s.events, name);
  }

  lemma FromStart(namespaces: seq<string>, events: seq<W.Event>, name: string)
    requires H.Possible(namespaces, W.Start(), events)
    ensures var balance := Balance(H.Emitted(namespaces, W.Start(), events), PodName(name));
      var pdm := H.Run(namespaces, W.Start(), events).pdm;
      && balance == |Holders(pdm, name)| + TotalSurplus(namespaces, W.Start(), events, name)
      && (AllTold(namespaces, W.Start(), events, name) ==> balance == TrackedCount(pdm, name))
  {
    PodBalance.PodBalance(namespaces, W.Start(), events, name);
    assert Holders(W.Start().pdm, name) == {};
    TrackedIsHeld(W.Start().pdm, name);
    if AllTold(namespaces, W.Start(), events, name) {
      PodBalanceIsTracking(namespaces, W.Start(), events, name);
    }
  }

  /** Nobody is informing about the kind, and the listener waits. */
  ghost predicate Quiet(s: State, kind: Kind) {
    !Busy(s) && s.pipe.listener.Waiting? && !P.SomeInforming(s.pipe, kind)
  }

  /** And whenever moreover the listener waits and nobody is informing about the kind, that count can be read off the
      reports already handed to the socket. */
  lemma ReceiverCounts(env: Env, steps: seq<Step>, subject: Subject, change: Change)
    requires Possible(env, Init(), steps) && IsOwn(env, subject)
    requires Quiet(Run(env, Init(), steps), KindOf(subject))
    ensures var s := Run(env, Init(), steps);
      && H.Possible(env.namespaces, W.Start(), s.events)
      && s.index == H.Run(env.namespaces, W.Start(), s.events)
      && Count(P.Delivered(s.pipe.sent, SlotOf(subject, change)), subject)
         == Reported(H.Emitted(env.namespaces, W.Start(), s.events), change, subject)
  {
    InitSound(env);
    RunSound(env, Init(), steps);
    ReportsCount(env, steps, subject, change);
    var s := Run(env, Init(), steps);
    var slot := SlotOf(subject, change);
    assert s.pipe.rs.pending.Get(slot) == [];
    assert P.Everything(s.pipe, slot) == P.Delivered(s.pipe.sent, slot);
  }

  /** Only the pod watcher informs about pods. */
  lemma QuietAboutPods(env: Env, s: State)
    requires PipeSound(env, s) && !Busy(s) && s.pipe.listener.Waiting?
    ensures Quiet(s, PODS)
  {
    forall id <- s.pipe.watchers
      ensures !P.Informing(s.pipe.watchers[id], PODS)
    {
      assert id == POD_WATCHER ==> s.pipe.watchers[id].script == [];
    }
  }

  /** CREATED minus DELETED entries about a subject over the reports handed to the socket. */
  function Received(s: State, subject: Subject): int {
    Count(P.Delivered(s.pipe.sent, SlotOf(subject, CREATED)), subject)
    - Count(P.Delivered(s.pipe.sent, SlotOf(subject, DELETED)), subject)
  }

  /** In every interleaving, whenever the pod watcher is between events and the listener waits: the reports sent tell
      in how many buckets a name is held, up to the surplus of its deletions; and if the entries of every event told
      what it does to the name, they tell whether the name is tracked. */
  lemma ReceiverKnowsTrackedPods(env: Env, steps: seq<Step>, name: string)
    requires Possible(env, Init(), steps)
    requires var s := Run(env, Init(), steps); !Busy(s) && s.pipe.listener.Waiting?
    ensures var s := Run(env, Init(), steps);
      && H.Possible(env.namespaces, W.Start(), s.events)
      && Received(s, PodName(name))
         == |Holders(s.index.pdm, name)| + TotalSurplus(env.namespaces, W.Start(), s.events, name)
      && (AllTold(env.namespaces, W.Start(), s.events, name) ==>
            Received(s, PodName(name)) == TrackedCount(s.index.pdm, name))
  {
    InitSound(env);
    RunSound(env, Init(), steps);
    var s := Run(env, Init(), steps);
    QuietAboutPods(env, s);
    ReceiverCounts(env, steps, PodName(name), CREATED);
    ReceiverCounts(env, steps, PodName(name), DELETED);
    FromStart(env.namespaces, s.events, name);
  }

  /** Likewise the reports sent contain one UPDATED entry of a name for each modified event of a pod tracked under it
      that was not terminating. */
  lemma ReceiverKnowsUpdates(env: Env, steps: seq<Step>, name: string)
    requires Possible(env, Init(), steps)
    requires var s := Run(env, Init(), steps); !Busy(s) && s.pipe.listener.Waiting?
    ensures var s := Run(env, Init(), steps);
      && H.Possible(env.namespaces, W.Start(), s.events)
      && Count(P.Delivered(s.pipe.sent, Slot(PODS, UPDATED)), PodName(name))
         == PodReports.TimesUpdated(env.namespaces, W.Start(), s.events, name)
  {
    InitSound(env);
    RunSound(env, Init(), steps);
    var s := Run(env, Init(), steps);
    QuietAboutPods(env, s);
    ReceiverCounts(env, steps, PodName(name), UPDATED);
    PodReports.UpdatesAreReported(env.namespaces, W.Start(), s.events, name, 0);
  }

  /** The same for microservices: a spec id that only the pod watcher reports under was received as created at most
      once; and if every deletion reported it exactly if its bucket left, the reports sent tell whether its
      microservice is in the index. */
  lemma ReceiverKnowsServices(env: Env, steps: seq<Step>, id: int)
    requires Possible(env, Init(), steps) && id !in env.otherIds
    requires Quiet(Run(env, Init(), steps), MICROSERVICES)
    ensures var s := Run(env, Init(), steps);
      && H.Possible(env.namespaces, W.Start(), s.events)
      && Count(P.Delivered(s.pipe.sent, Slot(MICROSERVICES, CREATED)), SpecId(id)) <= 1
      && (AllServiceTold(env.namespaces, W.Start(), s.events, id) ==>
            Received(s, SpecId(id)) == HeaderCount(s.index.pdm, id))
  {
    var s := Run(env, Init(), steps);
    ReceiverCounts(env, steps, SpecId(id), CREATED);
    ReceiverCounts(env, steps, SpecId(id), DELETED);
    CreatedAtMostOnce(env.namespaces, W.Start(), s.events, id);
    if AllServiceTold(env.namespaces, W.Start(), s.events, id) {
      ServiceBalance(env.namespaces, W.Start(), s.events, id);
    }
  }
}

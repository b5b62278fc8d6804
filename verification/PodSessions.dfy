/** Watch sessions: a session delivers every existing pod again as added. The watermark keeps the collector from
    reporting those a second time. */
module PodSessions {
  import opened Types
  import opened PodIndex
  import opened PodWatch
  import opened PodHistory

  /** The clock goes up from event to event. */
  predicate ClockIncreases(last: Time, events: seq<Event>)
    decreases |events|
  {
    events != [] ==>
      var e := events[0];
      if e.SessionEnds? || e.PodSeen? then last < e.now && ClockIncreases(e.now, events[1..])
      else ClockIncreases(last, events[1..])
  }

  predicate IsAdded(e: Event, uid: string) {
    e.PodSeen? && e.typ == Added && e.pod.uid == uid
  }

  /** Whenever the pod is delivered as added, it carries its creation time, which is not in the future. */
  predicate CreatedAt(uid: string, created: Time, events: seq<Event>) {
    forall e <- events :: IsAdded(e, uid) ==> e.pod.created == created && created <= e.now
  }

  /** Each session delivers the pod as added at most once. `delivered`: the current session already has. */
  predicate OncePerSession(namespaces: seq<string>, uid: string, delivered: bool, events: seq<Event>)
    decreases |events|
  {
    events != [] ==>
      var e := events[0];
      && (IsAdded(e, uid) ==> !delivered)
      && OncePerSession(namespaces, uid, (delivered || IsAdded(e, uid)) && !Ends(namespaces, e), events[1..])
  }

  /** How often the pod is reported created. */
  ghost function TimesReported(namespaces: seq<string>, st: State, events: seq<Event>, uid: string): nat
    requires Inv(st) && Possible(namespaces, st, events)
    decreases |events|
  {
    if events == [] then 0
    else
      HandleInv(namespaces, st, events[0]);
      (if Adds(namespaces, st, events[0]) && events[0].pod.uid == uid then 1 else 0)
      + TimesReported(namespaces, Handle(namespaces, st, events[0]).st, events[1..], uid)
  }

  /** The watermark only moves to the present, and the end of a session moves it. */
  lemma WatermarkStep(namespaces: seq<string>, st: State, e: Event)
    requires Inv(st) && OrderOk(st, e)
    ensures var t := Handle(namespaces, st, e).st;
      && (t.watermark == st.watermark || ((e.SessionEnds? || e.PodSeen?) && t.watermark == e.now))
      && (Ends(namespaces, e) ==> t.watermark == e.now)
  {
  }

  /** `reported`: the pod was reported before. Then the current session has delivered it already, or the
      watermark has passed its creation. */
  lemma {:induction false} NotReportedAgain(
      namespaces: seq<string>, st: State, events: seq<Event>,
      uid: string, created: Time, last: Time, delivered: bool, reported: bool)
    requires Inv(st) && Possible(namespaces, st, events)
    requires ClockIncreases(last, events) && CreatedAt(uid, created, events)
    requires OncePerSession(namespaces, uid, delivered, events)
    requires st.watermark <= last
    requires reported ==> created <= last && (delivered || created < st.watermark)
    ensures TimesReported(namespaces, st, events, uid) <= if reported then 0 else 1
    decreases |events|
  {
    if events == [] {
    } else {
      var e := events[0];
      HandleInv(namespaces, st, e);
      WatermarkStep(namespaces, st, e);
      var t := Handle(namespaces, st, e).st;
      var now := if e.SessionEnds? || e.PodSeen? then e.now else last;
      var again := Adds(namespaces, st, e) && e.pod.uid == uid;
      assert IsAdded(e, uid) ==> e in events;
      assert CreatedAt(uid, created, events[1..]);
      NotReportedAgain(namespaces, t, events[1..], uid, created, now,
        (delivered || IsAdded(e, uid)) && !Ends(namespaces, e), reported || again);
    }
  }

  /** Over any number of sessions, each of which delivers the pod as added at most once, with a clock that goes
      up and creation times that are not in the future, a pod is reported created at most once. */
  lemma ReportedAtMostOnce(namespaces: seq<string>, events: seq<Event>, uid: string, created: Time)
    requires Possible(namespaces, Start(), events)
    requires ClockIncreases(0, events) && CreatedAt(uid, created, events)
    requires OncePerSession(namespaces, uid, false, events)
    ensures TimesReported(namespaces, Start(), events, uid) <= 1
  {
    NotReportedAgain(namespaces, Start(), events, uid, created, 0, false, false);
  }

  // ----- pods seen late -----

  /** A pod created before the watermark is not reported again, nor for the first time, in any session. */
  lemma {:induction false} HiddenForGood(
      namespaces: seq<string>, st: State, events: seq<Event>, uid: string, created: Time, last: Time)
    requires Inv(st) && Possible(namespaces, st, events)
    requires ClockIncreases(last, events) && CreatedAt(uid, created, events)
    requires created < st.watermark <= last
    ensures TimesReported(namespaces, st, events, uid) == 0
    decreases |events|
  {
    if events == [] {
    } else {
      var e := events[0];
      HandleInv(namespaces, st, e);
      WatermarkStep(namespaces, st, e);
      assert IsAdded(e, uid) ==> e in events;
      assert CreatedAt(uid, created, events[1..]);
      var now := if e.SessionEnds? || e.PodSeen? then e.now else last;
      HiddenForGood(namespaces, Handle(namespaces, st, e).st, events[1..], uid, created, now);
    }
  }

  /** A modified event of a terminating pod moves the watermark in the middle of a session. A pod that was created
      before that moment and is delivered after it is never reported, in that session or a later one. */
  lemma TerminationHidesForGood(
      namespaces: seq<string>, st: State, m: Event, events: seq<Event>, uid: string, created: Time)
    requires Inv(st) && OrderOk(st, m) && Relevant(namespaces, m, Modified) && m.pod.deletion.Some?
    requires Inv(Handle(namespaces, st, m).st) && Possible(namespaces, Handle(namespaces, st, m).st, events)
    requires ClockIncreases(m.now, events) && CreatedAt(uid, created, events)
    requires created < m.now
    ensures TimesReported(namespaces, Handle(namespaces, st, m).st, events, uid) == 0
  {
    HiddenForGood(namespaces, Handle(namespaces, st, m).st, events, uid, created, m.now);
  }
}

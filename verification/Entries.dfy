/** Counting the report entries about one pod name or one spec id. */
module Entries {
  import opened Types

  /** What entries are counted about. */
  datatype Subject = PodName(name: string) | SpecId(id: int)

  function KindOf(subject: Subject): Kind {
    if subject.PodName? then PODS else MICROSERVICES
  }

  predicate About(entry: Entry, subject: Subject) {
    match subject
    case PodName(name) => entry.PodEntry? && entry.record.podName == name
    case SpecId(id) => entry.MicroEntry? && entry.service.podSpecId == id
  }

  function Count(entries: seq<Entry>, subject: Subject): nat {
    if entries == [] then 0
    else
      Count(entries[..|entries| - 1], subject) + if About(entries[|entries| - 1], subject) then 1 else 0
  }

  lemma {:induction false} CountConcat(a: seq<Entry>, b: seq<Entry>, subject: Subject)
    ensures Count(a + b, subject) == Count(a, subject) + Count(b, subject)
    decreases |b|
  {
    if b == [] {
      assert a + b == a;
    } else {
      CountConcat(a, b[..|b| - 1], subject);
      assert (a + b)[..|a + b| - 1] == a + b[..|b| - 1];
    }
  }

  lemma CountOne(entry: Entry, subject: Subject)
    ensures Count([entry], subject) == if About(entry, subject) then 1 else 0
  {
    assert [entry][..0] == [];
  }

  /** How many entries of a change are about the subject. */
  function Reported(deltas: seq<Delta>, change: Change, subject: Subject): nat {
    Count(EntriesOf(deltas, Slot(KindOf(subject), change)), subject)
  }

  /** CREATED minus DELETED entries. */
  function Balance(deltas: seq<Delta>, subject: Subject): int {
    Reported(deltas, CREATED, subject) - Reported(deltas, DELETED, subject)
  }

  lemma ReportedConcat(a: seq<Delta>, b: seq<Delta>, change: Change, subject: Subject)
    ensures Reported(a + b, change, subject) == Reported(a, change, subject) + Reported(b, change, subject)
  {
    var slot := Slot(KindOf(subject), change);
    EntriesOfConcat(a, b, slot);
    CountConcat(EntriesOf(a, slot), EntriesOf(b, slot), subject);
  }

  lemma BalanceConcat(a: seq<Delta>, b: seq<Delta>, subject: Subject)
    ensures Balance(a + b, subject) == Balance(a, subject) + Balance(b, subject)
  {
    ReportedConcat(a, b, CREATED, subject);
    ReportedConcat(a, b, DELETED, subject);
  }

  /** What one entry adds to the count. */
  function One(d: Delta, change: Change, subject: Subject): nat {
    if d.slot == Slot(KindOf(subject), change) && About(d.entry, subject) then 1 else 0
  }

  lemma ReportedOne(d: Delta, change: Change, subject: Subject)
    ensures Reported([d], change, subject) == One(d, change, subject)
    ensures Reported([], change, subject) == 0
  {
    EntriesOfOne(d, Slot(KindOf(subject), change));
    CountOne(d.entry, subject);
  }

  lemma ReportedTwo(d: Delta, d': Delta, change: Change, subject: Subject)
    ensures Reported([d] + [d'], change, subject) == One(d, change, subject) + One(d', change, subject)
  {
    ReportedOne(d, change, subject);
    ReportedOne(d', change, subject);
    ReportedConcat([d], [d'], change, subject);
  }

  lemma NothingReported(subject: Subject)
    ensures Balance([], subject) == 0 && forall change: Change :: Reported([], change, subject) == 0
  {
  }
}

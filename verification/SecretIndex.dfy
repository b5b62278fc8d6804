/** The secret index against a plain map from (namespace, name) to the secret written last. */
module SecretIndex {
  import opened Types
  import opened ResourceMap
  import opened Secrets
  import W = PodWatch

  type Map = map<Key, Secret>

  /** Every list has exactly one secret, no two lists have secrets of the same key, and the secrets are those of
      the map. */
  ghost predicate Represents(st: State, m: Map) {
    && (forall id <- st.store :: id < st.nextId && |st.store[id]| == 1)
    && (forall id <- st.store :: KeyOf(st.store[id][0]) in m && m[KeyOf(st.store[id][0])] == st.store[id][0])
    && (forall i <- st.store, j <- st.store :: KeyOf(st.store[i][0]) == KeyOf(st.store[j][0]) ==> i == j)
    && Covers(st.store, m.Keys)
  }

  /** What one event does to the map: the last write wins. */
  function Write(namespaces: seq<string>, m: Map, turn: Turn): Map {
    if turn.event.NotASecret? || !W.Watched(namespaces, turn.event.secret.namespace) then m
    else
      var s := Stripped(turn.event.secret);
      match turn.event.typ
      case Added => if s.created < turn.watermark then m else m[KeyOf(s) := s]
      case Modified => if KeyOf(s) in m then m[KeyOf(s) := s] else m
      case Deleted => m - {KeyOf(s)}
      case Bookmark => m
  }

  /** A tracked secret of this namespace has the name of `s` as its generated name, and another name. */
  predicate Clashes(m: Map, s: Secret) {
    exists k <- m :: k.namespace == s.namespace && k.name != s.name && m[k].generateName == s.name
  }

  /** A secret is added only when its key is not tracked; one that is modified or deleted clashes with none. */
  predicate Safe(namespaces: seq<string>, m: Map, turn: Turn) {
    var e := turn.event;
    && (Scans(namespaces, e) ==> !Clashes(m, e.secret))
    && (Accepted(namespaces, turn) ==> KeyOf(e.secret) !in m)
  }

  /** The event adds a secret that is not too old. */
  predicate Accepted(namespaces: seq<string>, turn: Turn) {
    var e := turn.event;
    && e.SecretSeen? && e.typ == W.Added
    && W.Watched(namespaces, e.secret.namespace) && e.secret.created >= turn.watermark
  }

  // ----- one event -----

  lemma HitsSameKey(st: State, m: Map, s: Secret, id: int)
    requires Represents(st, m) && !Clashes(m, s) && id in st.store
    ensures Hits(st.store[id], s) <==> KeyOf(st.store[id][0]) == KeyOf(s)
  {
  }

  /** Without a clash every visiting order finds the secret of the same key, if there is one. */
  lemma FirstHitIsLookup(st: State, m: Map, order: seq<int>, s: Secret)
    requires Represents(st, m) && !Clashes(m, s) && Visits(order, st.store.Keys)
    ensures var found := FirstHit(st.store, order, s);
      && (found.Some? <==> KeyOf(s) in m)
      && (found.Some? ==> KeyOf(st.store[found.value][0]) == KeyOf(s))
  {
    var found := FirstHit(st.store, order, s);
    if found.Some? {
      HitsSameKey(st, m, s, found.value);
    }
    if KeyOf(s) in m {
      var id :| id in st.store && KeyOf(st.store[id][0]) == KeyOf(s);
      HitsSameKey(st, m, s, id);
      assert id in order && Hits(st.store[id], s);
    }
  }

  ghost predicate Covers(store: Store, keys: set<Key>) {
    forall k <- keys :: exists id <- store :: store[id] != [] && KeyOf(store[id][0]) == k
  }

  lemma SameKeys(before: Store, after: Store, keys: set<Key>)
    requires before.Keys == after.Keys && Covers(before, keys)
    requires forall id <- before :: before[id] != [] && after[id] != [] && KeyOf(after[id][0]) == KeyOf(before[id][0])
    ensures Covers(after, keys)
  {
  }

  lemma Overwritten(st: State, m: Map, store: Store, id: int, s: Secret)
    requires Represents(st, m) && id in st.store && KeyOf(st.store[id][0]) == KeyOf(s)
    requires store.Keys == st.store.Keys && store[id] == [s]
    requires forall i <- store :: i != id ==> store[i] == st.store[i]
    ensures Represents(st.(store := store), m[KeyOf(s) := s])
  {
    assert forall i <- store :: |store[i]| == 1 && KeyOf(store[i][0]) == KeyOf(st.store[i][0]);
    var written := m[KeyOf(s) := s];
    forall i <- store
      ensures KeyOf(store[i][0]) in written && written[KeyOf(store[i][0])] == store[i][0]
    {
      assert i != id ==> KeyOf(st.store[i][0]) != KeyOf(s);
    }
    SameKeys(st.store, store, m.Keys);
    assert written.Keys == m.Keys;
  }

  lemma Overwrite(st: State, m: Map, id: int, s: Secret)
    requires Represents(st, m) && id in st.store && KeyOf(st.store[id][0]) == KeyOf(s)
    ensures Represents(st.(store := st.store[id := st.store[id][0 := s]]), m[KeyOf(s) := s])
  {
    var store := st.store[id := st.store[id][0 := s]];
    assert store[id] == [s];
    Overwritten(st, m, store, id, s);
  }

  lemma UpdateRefines(st: State, m: Map, order: seq<int>, s: Secret)
    requires Represents(st, m) && !Clashes(m, s) && Visits(order, st.store.Keys)
    ensures Represents(st.(store := Updated(st.store, order, s)), if KeyOf(s) in m then m[KeyOf(s) := s] else m)
  {
    FirstHitIsLookup(st, m, order, s);
    var found := FirstHit(st.store, order, s);
    if found.Some? {
      Overwrite(st, m, found.value, s);
    }
  }

  lemma RemoveRefines(st: State, m: Map, order: seq<int>, s: Secret)
    requires Represents(st, m) && !Clashes(m, s) && Visits(order, st.store.Keys)
    ensures Represents(st.(store := Removed(st.store, order, s)), m - {KeyOf(s)})
  {
    FirstHitIsLookup(st, m, order, s);
    var store := Removed(st.store, order, s);
    forall k <- m - {KeyOf(s)}
      ensures exists id <- store :: KeyOf(store[id][0]) == k
    {
      var id :| id in st.store && KeyOf(st.store[id][0]) == k;
      assert id in store && KeyOf(store[id][0]) == k;
    }
  }

  lemma AddRefines(st: State, m: Map, s: Secret)
    requires Represents(st, m) && KeyOf(s) !in m
    ensures Represents(State(st.store[st.nextId := [s]], st.nextId + 1), m[KeyOf(s) := s])
  {
    CoversOneMore(st.store, m.Keys, st.nextId, s);
    assert m[KeyOf(s) := s].Keys == m.Keys + {KeyOf(s)};
  }

  lemma CoversOneMore(store: Store, keys: set<Key>, id: int, s: Secret)
    requires Covers(store, keys) && id !in store
    ensures Covers(store[id := [s]], keys + {KeyOf(s)})
  {
    var after := store[id := [s]];
    forall k <- keys + {KeyOf(s)}
      ensures exists i <- after :: after[i] != [] && KeyOf(after[i][0]) == k
    {
      if k == KeyOf(s) {
        assert id in after && KeyOf(after[id][0]) == k;
      } else {
        var i :| i in store && store[i] != [] && KeyOf(store[i][0]) == k;
        assert i in after && after[i] == store[i];
      }
    }
  }

  lemma SafeRefines(namespaces: seq<string>, st: State, m: Map, turn: Turn)
    requires Represents(st, m) && Safe(namespaces, m, turn) && Visits(turn.order, st.store.Keys)
    ensures Represents(Handle(namespaces, st, turn).st, Write(namespaces, m, turn))
  {
    if turn.event.SecretSeen? && W.Watched(namespaces, turn.event.secret.namespace) {
      var s := Stripped(turn.event.secret);
      assert Clashes(m, s) <==> Clashes(m, turn.event.secret);
      match turn.event.typ
      case Added =>
        if s.created >= turn.watermark { AddRefines(st, m, s); }
      case Modified => UpdateRefines(st, m, turn.order, s);
      case Deleted => RemoveRefines(st, m, turn.order, s);
      case Bookmark =>
    }
  }

  /** There is a visiting order that starts with any given id. */
  lemma OrderFrom(ids: set<int>, first: int) returns (order: seq<int>)
    requires first in ids
    ensures Visits(order, ids) && order[0] == first
  {
    order := AnyOrder(ids - {first});
    order := [first] + order;
  }

  ghost predicate NoneHas(store: Store, k: Key) {
    forall id <- store :: store[id] != [] ==> KeyOf(store[id][0]) != k
  }

  /** No list has the victim's key once the victim is overwritten with another key, or removed. */
  lemma VictimLost(st: State, m: Map, victim: int, s: Secret)
    requires Represents(st, m) && victim in st.store && KeyOf(st.store[victim][0]) != KeyOf(s)
    ensures NoneHas(st.store[victim := st.store[victim][0 := s]], KeyOf(st.store[victim][0]))
    ensures NoneHas(st.store - {victim}, KeyOf(st.store[victim][0]))
  {
  }

  lemma KeyKept(st: State, m: Map, k: Key)
    requires k in m
    ensures Represents(st, m) ==> !NoneHas(st.store, k)
  {
  }

  /** If the clashing secret is visited first, it is overwritten or removed in place of the one meant. */
  lemma ClashBreaks(namespaces: seq<string>, st: State, m: Map, turn: Turn) returns (order: seq<int>)
    requires Represents(st, m) && Scans(namespaces, turn.event) && Clashes(m, turn.event.secret)
    ensures Visits(order, st.store.Keys)
    ensures !Represents(Handle(namespaces, st, turn.(order := order)).st, Write(namespaces, m, turn))
  {
    var s := Stripped(turn.event.secret);
    var k :| k in m && k.namespace == s.namespace && k.name != s.name && m[k].generateName == s.name;
    var victim :| victim in st.store && KeyOf(st.store[victim][0]) == k;
    order := OrderFrom(st.store.Keys, victim);
    assert FirstHit(st.store, order, s) == Some(victim);
    VictimLost(st, m, victim, s);
    var after := Handle(namespaces, st, turn.(order := order)).st.store;
    assert after ==
      if turn.event.typ == W.Modified then st.store[victim := st.store[victim][0 := s]] else st.store - {victim};
    KeyKept(Handle(namespaces, st, turn.(order := order)).st, Write(namespaces, m, turn), k);
  }

  lemma DoubleBreaks(namespaces: seq<string>, st: State, m: Map, turn: Turn)
    requires Represents(st, m) && Accepted(namespaces, turn) && KeyOf(turn.event.secret) in m
    ensures !Represents(Handle(namespaces, st, turn).st, Write(namespaces, m, turn))
  {
    var k := KeyOf(turn.event.secret);
    var id :| id in st.store && KeyOf(st.store[id][0]) == k;
    var after := Handle(namespaces, st, turn).st;
    assert after.store[id] == st.store[id] && KeyOf(after.store[st.nextId][0]) == k;
  }

  lemma SafeUnderEveryOrder(namespaces: seq<string>, st: State, m: Map, turn: Turn, order: seq<int>)
    requires Represents(st, m) && Safe(namespaces, m, turn) && Visits(order, st.store.Keys)
    ensures Represents(Handle(namespaces, st, turn.(order := order)).st, Write(namespaces, m, turn))
  {
    var visited := turn.(order := order);
    assert Safe(namespaces, m, visited) && Write(namespaces, m, visited) == Write(namespaces, m, turn);
    SafeRefines(namespaces, st, m, visited);
  }

  lemma UnsafeUnderSomeOrder(namespaces: seq<string>, st: State, m: Map, turn: Turn) returns (order: seq<int>)
    requires Represents(st, m) && !Safe(namespaces, m, turn)
    ensures Visits(order, st.store.Keys)
    ensures !Represents(Handle(namespaces, st, turn.(order := order)).st, Write(namespaces, m, turn))
  {
    if Scans(namespaces, turn.event) {
      order := ClashBreaks(namespaces, st, m, turn);
    } else {
      order := AnyOrder(st.store.Keys);
      var visited := turn.(order := order);
      assert Write(namespaces, m, visited) == Write(namespaces, m, turn);
      DoubleBreaks(namespaces, st, m, visited);
    }
  }

  /** One event keeps the index a faithful copy of the last-write-wins map under every visiting order, exactly
      when the event is safe for the map. */
  lemma EventRefinesExactly(namespaces: seq<string>, st: State, m: Map, turn: Turn)
    requires Represents(st, m)
    ensures Safe(namespaces, m, turn) <==>
      forall order: seq<int> :: Visits(order, st.store.Keys) ==>
        Represents(Handle(namespaces, st, turn.(order := order)).st, Write(namespaces, m, turn))
  {
    if Safe(namespaces, m, turn) {
      forall order: seq<int> | Visits(order, st.store.Keys)
        ensures Represents(Handle(namespaces, st, turn.(order := order)).st, Write(namespaces, m, turn))
      {
        SafeUnderEveryOrder(namespaces, st, m, turn, order);
      }
    } else {
      var order := UnsafeUnderSomeOrder(namespaces, st, m, turn);
    }
  }

  // ----- whole streams -----

  function Run(namespaces: seq<string>, st: State, turns: seq<Turn>): State
    decreases |turns|
  {
    if turns == [] then st else Run(namespaces, Handle(namespaces, st, turns[0]).st, turns[1..])
  }

  predicate AllVisit(namespaces: seq<string>, st: State, turns: seq<Turn>)
    decreases |turns|
  {
    turns != [] ==>
      && Visits(turns[0].order, st.store.Keys)
      && AllVisit(namespaces, Handle(namespaces, st, turns[0]).st, turns[1..])
  }

  function Replay(namespaces: seq<string>, m: Map, turns: seq<Turn>): Map
    decreases |turns|
  {
    if turns == [] then m else Replay(namespaces, Write(namespaces, m, turns[0]), turns[1..])
  }

  /** A condition on the events alone: the index and the visiting orders do not occur in it. */
  predicate AllSafe(namespaces: seq<string>, m: Map, turns: seq<Turn>)
    decreases |turns|
  {
    turns != [] ==>
      Safe(namespaces, m, turns[0]) && AllSafe(namespaces, Write(namespaces, m, turns[0]), turns[1..])
  }

  /** Over every stream of safe events, whatever the visiting orders, the index is the last-write-wins map. */
  lemma {:induction false} SecretIndexIsAMap(namespaces: seq<string>, st: State, m: Map, turns: seq<Turn>)
    requires Represents(st, m) && AllSafe(namespaces, m, turns) && AllVisit(namespaces, st, turns)
    ensures Represents(Run(namespaces, st, turns), Replay(namespaces, m, turns))
    decreases |turns|
  {
    if turns == [] {
    } else {
      SafeRefines(namespaces, st, m, turns[0]);
      SecretIndexIsAMap(namespaces, Handle(namespaces, st, turns[0]).st, Write(namespaces, m, turns[0]), turns[1..]);
    }
  }

  // ----- what is reported -----

  function Emitted(namespaces: seq<string>, st: State, turns: seq<Turn>): seq<Delta>
    decreases |turns|
  {
    if turns == [] then []
    else
      Handle(namespaces, st, turns[0]).deltas + Emitted(namespaces, Handle(namespaces, st, turns[0]).st, turns[1..])
  }

  /** The secret is the one of the event without its data and without two of its annotations. */
  ghost predicate Shows(shown: Secret, s: Secret) {
    && shown.namespace == s.namespace && shown.name == s.name && shown.generateName == s.generateName
    && shown.created == s.created && shown.data.None?
    && "data" !in shown.annotations && "kubectl.kubernetes.io/last-applied-configuration" !in shown.annotations
    && forall a: string | a != "data" && a != "kubectl.kubernetes.io/last-applied-configuration" ::
         (a in shown.annotations <==> a in s.annotations)
         && (a in s.annotations ==> shown.annotations[a] == s.annotations[a])
  }

  /** An added secret that is not too old, a modified one and a deleted one are reported in one entry each, under that
      change, whether or not they are tracked; nothing else is. */
  lemma SecretReport(namespaces: seq<string>, st: State, turn: Turn)
    ensures var out, e := Handle(namespaces, st, turn), turn.event;
      && (out.failed <==> e.NotASecret?)
      && if e.NotASecret? || !W.Watched(namespaces, e.secret.namespace) || e.typ == W.Bookmark
            || (e.typ == W.Added && e.secret.created < turn.watermark)
         then out.deltas == []
         else
           && |out.deltas| == 1
           && out.deltas[0].slot.kind == SECRETS && out.deltas[0].entry.SecretEntry?
           && (out.deltas[0].slot.change == CREATED <==> e.typ == W.Added)
           && (out.deltas[0].slot.change == UPDATED <==> e.typ == W.Modified)
           && (out.deltas[0].slot.change == DELETED <==> e.typ == W.Deleted)
           && Shows(out.deltas[0].entry.secret, e.secret)
  {
    if turn.event.SecretSeen? {
      StrippedShows(turn.event.secret);
    }
  }

  lemma StrippedShows(s: Secret)
    ensures Shows(Stripped(s), s)
  {
    assert "data" in HIDDEN && "kubectl.kubernetes.io/last-applied-configuration" in HIDDEN;
  }

  /** What a receiver does with one entry: a created secret is put under its key, an updated one overwrites what is
      there, a deleted one is dropped. */
  function Receive(m: Map, d: Delta): Map {
    if d.slot.kind != SECRETS || !d.entry.SecretEntry? then m
    else
      var s := d.entry.secret;
      match d.slot.change
      case CREATED => m[Key(s.namespace, s.name) := s]
      case UPDATED => if Key(s.namespace, s.name) in m then m[Key(s.namespace, s.name) := s] else m
      case DELETED => m - {Key(s.namespace, s.name)}
  }

  function ReceiveAll(m: Map, deltas: seq<Delta>): Map
    decreases |deltas|
  {
    if deltas == [] then m else ReceiveAll(Receive(m, deltas[0]), deltas[1..])
  }

  lemma ReceiveStep(namespaces: seq<string>, st: State, m: Map, turn: Turn, rest: seq<Delta>)
    ensures ReceiveAll(m, Handle(namespaces, st, turn).deltas + rest) ==
      ReceiveAll(Write(namespaces, m, turn), rest)
  {
    var deltas := Handle(namespaces, st, turn).deltas;
    SecretReport(namespaces, st, turn);
    if deltas == [] {
      assert deltas + rest == rest;
    } else {
      assert (deltas + rest)[1..] == rest;
    }
  }

  /** Over every stream, safe or not and under every visiting order, a receiver that replays the entries alone ends
      with the map in which the last write of every secret wins. */
  lemma {:induction false} EntriesReplayTheMap(namespaces: seq<string>, st: State, m: Map, turns: seq<Turn>)
    ensures ReceiveAll(m, Emitted(namespaces, st, turns)) == Replay(namespaces, m, turns)
    decreases |turns|
  {
    if turns != [] {
      var out := Handle(namespaces, st, turns[0]);
      ReceiveStep(namespaces, st, m, turns[0], Emitted(namespaces, out.st, turns[1..]));
      EntriesReplayTheMap(namespaces, out.st, Write(namespaces, m, turns[0]), turns[1..]);
    }
  }

  /** Over every stream of safe events, whatever the visiting orders, what the receiver has is what the index has. */
  lemma ReceiverHasTheIndex(namespaces: seq<string>, st: State, m: Map, turns: seq<Turn>)
    requires Represents(st, m) && AllSafe(namespaces, m, turns) && AllVisit(namespaces, st, turns)
    ensures Represents(Run(namespaces, st, turns), ReceiveAll(m, Emitted(namespaces, st, turns)))
  {
    SecretIndexIsAMap(namespaces, st, m, turns);
    EntriesReplayTheMap(namespaces, st, m, turns);
  }

  // ----- what leaves the cluster -----

  /** The secret has no data and neither of the two annotations that may repeat it. */
  predicate Clean(s: Secret) {
    && s.data.None?
    && "data" !in s.annotations && "kubectl.kubernetes.io/last-applied-configuration" !in s.annotations
  }

  predicate CleanEntries(deltas: seq<Delta>) {
    forall d <- deltas :: d.slot.kind == SECRETS && d.entry.SecretEntry? && Clean(d.entry.secret)
  }

  ghost predicate CleanStore(store: Store) {
    forall id <- store :: forall i :: 0 <= i < |store[id]| ==> Clean(store[id][i])
  }

  /** Over every stream, safe or not: no secret that is stored or reported carries its data. */
  lemma {:induction false} SecretDataStaysInTheCluster(namespaces: seq<string>, st: State, turns: seq<Turn>)
    requires CleanStore(st.store)
    ensures CleanStore(Run(namespaces, st, turns).store) && CleanEntries(Emitted(namespaces, st, turns))
    decreases |turns|
  {
    if turns == [] {
    } else {
      var out := Handle(namespaces, st, turns[0]);
      SecretReport(namespaces, st, turns[0]);
      if turns[0].event.SecretSeen? { StrippedShows(turns[0].event.secret); }
      assert CleanStore(out.st.store) && CleanEntries(out.deltas);
      SecretDataStaysInTheCluster(namespaces, out.st, turns[1..]);
    }
  }
}

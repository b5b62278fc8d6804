/** The secrets the collector tracks, found by scans over a map of lists in whatever order it is visited, and
    the plain keyed map that this index refines. */
module Secrets {
  import opened Types
  import opened ResourceMap
  import Ids
  import P = Pipeline
  import W = PodWatch

  type Store = map<int, seq<Secret>>

  datatype Key = Key(namespace: string, name: string)

  function KeyOf(s: Secret): Key {
    Key(s.namespace, s.name)
  }

  const HIDDEN := {"data", "kubectl.kubernetes.io/last-applied-configuration"}

  /** A secret without what must not leave the cluster. */
  function Stripped(s: Secret): Secret {
    s.(data := None, annotations := s.annotations - HIDDEN)
  }

  // ----- scans -----

  /** The first secret of the list has the namespace of `s`, and its name or generated name is the name of `s`. */
  predicate Hits(b: seq<Secret>, s: Secret) {
    b != [] && b[0].namespace == s.namespace && (b[0].name == s.name || b[0].generateName == s.name)
  }

  function FirstHit(store: Store, order: seq<int>, s: Secret): (found: Option<int>)
    ensures found.Some? ==> found.value in order && found.value in store && Hits(store[found.value], s)
    ensures found.None? ==> forall id <- order :: id in store ==> !Hits(store[id], s)
  {
    if order == [] then None
    else if order[0] in store && Hits(store[order[0]], s) then Some(order[0])
    else FirstHit(store, order[1..], s)
  }

  lemma FirstHitFrom(store: Store, order: seq<int>, n: nat, s: Secret)
    requires n < |order|
    ensures FirstHit(store, order[n..], s) ==
      if order[n] in store && Hits(store[order[n]], s) then Some(order[n]) else FirstHit(store, order[n + 1..], s)
  {
    assert order[n..][1..] == order[n + 1..];
  }

  function Updated(store: Store, order: seq<int>, s: Secret): Store {
    match FirstHit(store, order, s)
    case None => store
    case Some(id) => store[id := store[id][0 := s]]
  }

  function Removed(store: Store, order: seq<int>, s: Secret): Store {
    match FirstHit(store, order, s)
    case None => store
    case Some(id) => store - {id}
  }

  // ----- one event -----

  datatype Event = SecretSeen(typ: W.WatchType, secret: Secret) | NotASecret

  /** One call of the event handler. `order`: how the scan of the call visits the ids. */
  datatype Turn = Turn(event: Event, watermark: Time, order: seq<int>)

  datatype State = State(store: Store, nextId: int)

  /** `failed`: the handler returns an error, which ends the session. */
  datatype Outcome = Outcome(st: State, deltas: seq<Delta>, failed: bool)

  /** The event makes the handler scan the index. */
  predicate Scans(namespaces: seq<string>, event: Event) {
    event.SecretSeen? && event.typ in {W.Modified, W.Deleted} && W.Watched(namespaces, event.secret.namespace)
  }

  function SecretDelta(change: Change, s: Secret): Delta {
    Delta(Slot(SECRETS, change), SecretEntry(s))
  }

  function Handle(namespaces: seq<string>, st: State, turn: Turn): Outcome {
    match turn.event
    case NotASecret => Outcome(st, [], true)
    case SecretSeen(typ, secret) =>
      var s := Stripped(secret);
      if !W.Watched(namespaces, s.namespace) then Outcome(st, [], false)
      else
        match typ
        case Added =>
          if s.created < turn.watermark then Outcome(st, [], false)
          else Outcome(State(st.store[st.nextId := [s]], st.nextId + 1), [SecretDelta(CREATED, s)], false)
        case Modified => Outcome(st.(store := Updated(st.store, turn.order, s)), [SecretDelta(UPDATED, s)], false)
        case Deleted => Outcome(st.(store := Removed(st.store, turn.order, s)), [SecretDelta(DELETED, s)], false)
        case Bookmark => Outcome(st, [], false)
  }

  // ----- the source's methods -----

  /** The object that an event delivers. The index and the report's CREATED entry point to the same one. */
  class SecretObject {
    var secret: Secret

    constructor (secret: Secret)
      ensures this.secret == secret
    {
      this.secret := secret;
    }
  }

  /** The secrets of a list of objects. */
  ghost function Contents(objects: seq<SecretObject>): (secrets: seq<Secret>)
    reads objects
    ensures |secrets| == |objects| && forall i :: 0 <= i < |objects| ==> secrets[i] == objects[i].secret
  {
    seq(|objects|, i requires 0 <= i < |objects| reads objects => objects[i].secret)
  }

  class SecretWatcher {
    const includeNamespaces: seq<string>
    const ids: Ids.IdDataBase
    const secretdm: ResourceMap<SecretObject>

    constructor (namespaces: seq<string>, ids: Ids.IdDataBase)
      requires Ids.Sound(ids.Contents())
      ensures includeNamespaces == namespaces && this.ids == ids && fresh(secretdm) && secretdm.resourceMap == map[]
      ensures Valid()
    {
      includeNamespaces, this.ids := namespaces, ids;
      secretdm := new ResourceMap<SecretObject>();
    }

    /** The stored objects. */
    ghost function Objects(): set<SecretObject>
      reads secretdm
    {
      set id, i | id in secretdm.resourceMap && 0 <= i < |secretdm.resourceMap[id]| :: secretdm.resourceMap[id][i]
    }

    ghost function Stored(): Store
      reads secretdm, Objects()
    {
      map id | id in secretdm.resourceMap :: Contents(secretdm.resourceMap[id])
    }

    ghost function View(): State
      reads ids, secretdm, Objects()
    {
      State(Stored(), ids.counter)
    }

    /** No object is stored twice. */
    ghost predicate Apart()
      reads secretdm
    {
      forall id <- secretdm.resourceMap, id' <- secretdm.resourceMap, i: nat, j: nat
        | i < |secretdm.resourceMap[id]| && j < |secretdm.resourceMap[id']| && (id != id' || i != j) ::
        secretdm.resourceMap[id][i] != secretdm.resourceMap[id'][j]
    }

    ghost predicate Valid()
      reads ids, secretdm
    {
      Ids.Sound(ids.Contents()) && Apart() && forall id <- secretdm.resourceMap :: id < ids.counter
    }

    /** The search that updates and removals have in common: it ends at the first secret that is hit. */
    method FindSecret(secret: Secret) returns (found: Option<int>, ghost order: seq<int>)
      ensures Visits(order, secretdm.resourceMap.Keys)
      ensures found == FirstHit(Stored(), order, secret)
    {
      ghost var store := Stored();
      var ids := secretdm.GetIDs();
      order := ids;
      for n := 0 to |ids|
        invariant FirstHit(store, ids, secret) == FirstHit(store, ids[n..], secret)
      {
        FirstHitFrom(store, ids, n, secret);
        assert ids[n] in ids && ids[n] in store;
        var hit := FrontIsHit(ids[n], secret);
        assert Stored() == store;
        if hit {
          return Some(ids[n]), order;
        }
      }
      assert Stored() == store;
      return None, order;
    }

    /** Whether the search ends at this id. */
    method FrontIsHit(id: int, secret: Secret) returns (hit: bool)
      requires id in secretdm.resourceMap
      ensures hit <==> Hits(Stored()[id], secret)
    {
      var front := secretdm.Front(id);
      if front.None? || front.value.secret.namespace != secret.namespace {
        return false;
      }
      return front.value.secret.name == secret.name || front.value.secret.generateName == secret.name;
    }

    /** Overwrites the first object of a list. */
    method Overwrite(id: int, secret: Secret)
      requires Apart() && id in secretdm.resourceMap && secretdm.resourceMap[id] != []
      modifies Objects()
      ensures Stored() == old(Stored())[id := old(Stored())[id][0 := secret]]
      ensures forall x <- Objects() ::
        x.secret == if x == secretdm.resourceMap[id][0] then secret else old(x.secret)
    {
      var objects := secretdm.resourceMap[id];
      ghost var store := Stored();
      assert objects[0] in Objects();
      objects[0].secret := secret;
      forall k <- secretdm.resourceMap
        ensures Contents(secretdm.resourceMap[k]) == if k == id then store[id][0 := secret] else store[k]
      {
        var others := secretdm.resourceMap[k];
        assert forall i: nat :: i < |others| && (k != id || i != 0) ==> others[i] != objects[0];
      }
    }

    /** Overwrites the object of the first secret that is hit, in place. */
    method UpdateSecret(secret: Secret) returns (ghost order: seq<int>)
      requires Apart()
      modifies Objects()
      ensures Visits(order, secretdm.resourceMap.Keys)
      ensures Stored() == Updated(old(Stored()), order, secret)
      ensures var hit := FirstHit(old(Stored()), order, secret);
        forall x <- Objects() :: x.secret ==
          if hit.Some? && x == secretdm.resourceMap[hit.value][0] then secret else old(x.secret)
    {
      var found;
      found, order := FindSecret(secret);
      if found.Some? {
        Overwrite(found.value, secret);
      }
    }

    /** Takes a list out. */
    method Take(id: int)
      modifies secretdm
      ensures Stored() == old(Stored()) - {id} && (old(Valid()) ==> Valid())
    {
      ghost var store := Stored();
      secretdm.Remove(id);
      assert forall k <- secretdm.resourceMap :: Contents(secretdm.resourceMap[k]) == store[k];
    }

    method RemoveSecret(secret: Secret) returns (name: string, ghost order: seq<int>)
      modifies secretdm
      ensures Visits(order, old(secretdm.resourceMap.Keys))
      ensures Stored() == Removed(old(Stored()), order, secret)
      ensures old(Valid()) ==> Valid()
      ensures name == match FirstHit(old(Stored()), order, secret)
        case None => ""
        case Some(id) => old(Stored())[id][0].name
    {
      ghost var store := Stored();
      var found;
      found, order := FindSecret(secret);
      assert Stored() == store;
      if found.None? {
        return "", order;
      }
      var front := secretdm.Front(found.value);
      name := front.value.secret.name;
      Take(found.value);
    }

    /** A new list with one object. */
    method Store(added: SecretObject, id: int)
      requires id !in secretdm.resourceMap && added !in Objects()
      modifies secretdm
      ensures secretdm.resourceMap == old(secretdm.resourceMap)[id := [added]]
      ensures Stored() == old(Stored())[id := [added.secret]]
      ensures old(Apart()) ==> Apart()
    {
      secretdm.Init(id);
      secretdm.PushBack(id, added);
      assert [] + [added] == [added];
      assert Contents([added]) == [added.secret];
      assert forall k <- old(secretdm.resourceMap) :: secretdm.resourceMap[k] == old(secretdm.resourceMap)[k];
      assert forall k <- old(secretdm.resourceMap), i: nat | i < |old(secretdm.resourceMap)[k]| ::
        old(secretdm.resourceMap)[k][i] in old(Objects());
    }

    /** Stores a new secret under a new id. The object stored is the one that goes into the report. */
    method AddSecret(secret: Secret) returns (added: SecretObject)
      requires Valid()
      modifies ids, secretdm
      ensures Valid() && fresh(added) && added.secret == secret
      ensures secretdm.resourceMap == old(secretdm.resourceMap)[old(ids.counter) := [added]]
      ensures View() == State(old(Stored())[old(ids.counter) := [secret]], old(ids.counter) + 1)
    {
      added := new SecretObject(secret);
      var id := ids.CreateID();
      Store(added, id);
    }

    /** An update reaches into the report: a secret that is changed while its CREATED entry is pending shows the
        changed content in that entry. */
    method UpdateReachesReport(secret: Secret, changed: Secret) returns (entry: SecretObject)
      requires Valid()
      requires KeyOf(changed) == KeyOf(secret) && forall id <- Stored() :: !Hits(Stored()[id], changed)
      modifies ids, secretdm, Objects()
      ensures entry.secret == changed
    {
      ghost var id := ids.counter;
      entry := AddSecret(secret);
      ghost var store := Stored();
      assert forall k <- store :: Hits(store[k], changed) <==> k == id;
      ghost var order := UpdateSecret(changed);
      assert FirstHit(store, order, changed) == Some(id);
      assert entry in Objects() by {
        assert secretdm.resourceMap[id][0] == entry;
      }
    }

    /** `script`: what is left to do for the report once the index has changed. `shared`: the stored object, if the
        report's entry points to it. */
    method SecretEventHandler(event: Event, watermark: Time)
        returns (failed: bool, script: seq<P.Action>, shared: Option<SecretObject>, ghost order: seq<int>)
      requires Valid()
      modifies ids, secretdm, Objects()
      ensures Valid()
      ensures Scans(includeNamespaces, event) ==> Visits(order, old(secretdm.resourceMap.Keys))
      ensures var out := Handle(includeNamespaces, old(View()), Turn(event, watermark, order));
        && View() == out.st && failed == out.failed
        && script == (if out.deltas == [] then [] else [P.Inform, P.Append(out.deltas[0])])
        && (shared.Some? <==> out.deltas != [] && out.deltas[0].slot.change == CREATED)
      ensures shared.Some? ==>
        && old(ids.counter) in secretdm.resourceMap && secretdm.resourceMap[old(ids.counter)] == [shared.value]
        && script[1] == P.Append(SecretDelta(CREATED, shared.value.secret))
    {
      failed, script, shared, order := false, [], None, [];
      if event.NotASecret? {
        failed := true;
        return;
      }
      var watched := W.IsNamespaceWatched(includeNamespaces, event.secret.namespace);
      if !watched {
        return;
      }
      var secret := Stripped(event.secret);
      match event.typ {
        case Added =>
          if secret.created < watermark {
            return;
          }
          var added := AddSecret(secret);
          shared := Some(added);
          script := [P.Inform, P.Append(SecretDelta(CREATED, secret))];
        case Modified =>
          order := UpdateSecret(secret);
          script := [P.Inform, P.Append(SecretDelta(UPDATED, secret))];
        case Deleted =>
          var _, visited := RemoveSecret(secret);
          order := visited;
          script := [P.Inform, P.Append(SecretDelta(DELETED, secret))];
        case Bookmark =>
      }
    }
  }
}

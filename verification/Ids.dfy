/** The id database: a counter, and the list of ids that have been handed out and not deleted. */
module Ids {

  /** The database as a value. */
  datatype Database = Database(ids: seq<int>, counter: int)

  /** One more than the largest listed id: no listed id reaches it. */
  function Bound(ids: seq<int>): (b: int)
    ensures forall x <- ids :: x < b
  {
    if ids == [] then 0
    else
      var rest := Bound(ids[1..]);
      assert forall x <- ids :: x == ids[0] || x in ids[1..];
      if ids[0] < rest then rest else ids[0] + 1
  }

  /** The first number from `from` on that is not listed. */
  function FirstUnlisted(ids: seq<int>, from: int): (id: int)
    ensures from <= id && id !in ids
    ensures forall x :: from <= x < id ==> x in ids
    decreases Bound(ids) - from
  {
    if from in ids then FirstUnlisted(ids, from + 1) else from
  }

  /** Where `id` is listed first; past the end when it is not listed. */
  function FirstIndex(ids: seq<int>, id: int): (e: nat)
    ensures e <= |ids| && id !in ids[..e]
    ensures e < |ids| ==> ids[e] == id
  {
    if ids == [] || ids[0] == id then 0
    else
      var e := FirstIndex(ids[1..], id) + 1;
      assert ids[..e] == [ids[0]] + ids[1..][..e - 1];
      e
  }

  function RemoveFirst(ids: seq<int>, id: int): seq<int> {
    var e := FirstIndex(ids, id);
    if e == |ids| then ids else ids[..e] + ids[e + 1..]
  }

  class IdDataBase {
    var ids: seq<int>
    var counter: int

    constructor ()
      ensures Contents() == Database([], 0)
    {
      ids := [];
      counter := 0;
    }

    ghost function Contents(): Database
      reads this
    {
      Database(ids, counter)
    }

    method IDCreator() returns (id: int)
      modifies this`counter
      ensures id == old(counter) && counter == old(counter) + 1
    {
      id := counter;
      counter := counter + 1;
    }

    method CreateID() returns (id: int)
      modifies this
      ensures id == FirstUnlisted(old(ids), old(counter))
      ensures Contents() == Database(old(ids) + [id], id + 1)
      ensures Sound(old(Contents())) ==> Sound(Contents()) && id == old(counter)
    {
      ghost var db := Contents();
      var flag := 1;
      id := counter - 1;
      while flag == 1
        invariant ids == old(ids)
        invariant id == counter - 1
        invariant flag == 1 ==>
          old(counter) <= counter && FirstUnlisted(ids, counter) == FirstUnlisted(ids, old(counter))
        invariant flag != 1 ==> id == FirstUnlisted(ids, old(counter))
        decreases if flag == 1 then 1 else 0, Bound(ids) - counter
      {
        flag := 0;
        id := IDCreator();
        var e := 0;
        while e < |ids|
          invariant 0 <= e <= |ids|
          invariant flag == 0 && id !in ids[..e]
        {
          if ids[e] == id {
            flag := 1;
            break;
          }
          e := e + 1;
        }
      }
      ids := ids + [id];
      if Sound(db) {
        OnePass(db);
        ApplySound(db, Create);
      }
    }

    method DeleteID(id: int)
      modifies this`ids
      ensures ids == RemoveFirst(old(ids), id)
    {
      var e := 0;
      while e < |ids|
        invariant 0 <= e <= |ids|
        invariant ids == old(ids) && id !in ids[..e]
      {
        if ids[e] == id {
          ids := ids[..e] + ids[e + 1..];
          break;
        }
        e := e + 1;
      }
    }
  }

  // ----- whole runs of the database -----

  datatype Op = Create | Delete(id: int)

  function Apply(db: Database, op: Op): Database {
    match op
    case Create =>
      var id := FirstUnlisted(db.ids, db.counter);
      Database(db.ids + [id], id + 1)
    case Delete(id) =>
      Database(RemoveFirst(db.ids, id), db.counter)
  }

  function Run(db: Database, ops: seq<Op>): Database
    decreases |ops|
  {
    if ops == [] then db else Run(Apply(db, ops[0]), ops[1..])
  }

  /** The ids that the creations of a run returned, in order. */
  function Issued(db: Database, ops: seq<Op>): seq<int>
    decreases |ops|
  {
    if ops == [] then []
    else
      var rest := Issued(Apply(db, ops[0]), ops[1..]);
      if ops[0].Create? then [FirstUnlisted(db.ids, db.counter)] + rest else rest
  }

  ghost predicate Increasing(s: seq<int>) {
    forall i, j :: 0 <= i < j < |s| ==> s[i] < s[j]
  }

  ghost predicate Sound(db: Database) {
    && Increasing(db.ids)
    && (forall x <- db.ids :: x < db.counter)
  }

  /** In a sound database the retry loop of `CreateID` is over after one pass. */
  lemma OnePass(db: Database)
    requires Sound(db)
    ensures FirstUnlisted(db.ids, db.counter) == db.counter
  {
  }

  lemma RemoveFirstIncreasing(ids: seq<int>, id: int)
    requires Increasing(ids)
    ensures Increasing(RemoveFirst(ids, id))
    ensures forall x :: x in RemoveFirst(ids, id) <==> x in ids && x != id
  {
    var e := FirstIndex(ids, id);
    if e == |ids| {
      assert ids[..e] == ids;
    } else {
      var r := RemoveFirst(ids, id);
      assert ids == ids[..e] + [id] + ids[e + 1..];
      assert forall i :: 0 <= i < |r| ==> r[i] == if i < e then ids[i] else ids[i + 1];
    }
  }

  lemma ApplySound(db: Database, op: Op)
    requires Sound(db)
    ensures Sound(Apply(db, op))
  {
    match op
    case Create =>
      OnePass(db);
      assert forall i :: 0 <= i < |db.ids| ==> db.ids[i] in db.ids;
    case Delete(id) =>
      RemoveFirstIncreasing(db.ids, id);
  }

  /** However creations and deletions are interleaved, a run that starts sound ends sound, and it issues the
      consecutive numbers from its first counter on: no id is issued twice, not even a deleted one. */
  lemma {:induction false} IdsAreNeverReissued(db: Database, ops: seq<Op>)
    requires Sound(db)
    ensures Sound(Run(db, ops))
    ensures var issued := Issued(db, ops);
      && Run(db, ops).counter == db.counter + |issued|
      && forall i :: 0 <= i < |issued| ==> issued[i] == db.counter + i
    decreases |ops|
  {
    if ops == [] {
    } else {
      ApplySound(db, ops[0]);
      OnePass(db);
      IdsAreNeverReissued(Apply(db, ops[0]), ops[1..]);
    }
  }

  /** The live list of a run from the empty database: the issued ids whose deletion has not followed. */
  lemma {:induction false} LiveIdsWereIssued(db: Database, ops: seq<Op>, x: int)
    requires Sound(db) && x in Run(db, ops).ids
    ensures x in db.ids || x in Issued(db, ops)
    decreases |ops|
  {
    if ops == [] {
    } else {
      ApplySound(db, ops[0]);
      if ops[0].Delete? { RemoveFirstIncreasing(db.ids, ops[0].id); }
      LiveIdsWereIssued(Apply(db, ops[0]), ops[1..], x);
    }
  }
}

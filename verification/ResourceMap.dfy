/** The map of lists in which secrets and namespaces are kept. */
module ResourceMap {
  import opened Types

  /** One of the orders in which a loop over these ids may visit them. */
  predicate Visits(order: seq<int>, ids: set<int>) {
    && (forall i, j :: 0 <= i < j < |order| ==> order[i] != order[j])
    && (forall id <- order :: id in ids)
    && (forall id <- ids :: id in order)
  }

  lemma {:induction false} AnyOrder(ids: set<int>) returns (order: seq<int>)
    ensures Visits(order, ids)
    decreases |ids|
  {
    if ids == {} {
      order := [];
    } else {
      var first := AnyOf(ids);
      order := AnyOrder(ids - {first});
      order := [first] + order;
    }
  }

  class ResourceMap<T> {
    var resourceMap: map<int, seq<T>>

    constructor ()
      ensures resourceMap == map[]
    {
      resourceMap := map[];
    }

    method Init(index: int)
      modifies this
      ensures resourceMap == if index in old(resourceMap) then old(resourceMap) else old(resourceMap)[index := []]
    {
      if index !in resourceMap {
        resourceMap := resourceMap[index := []];
      }
    }

    method Remove(index: int)
      modifies this
      ensures resourceMap == old(resourceMap) - {index}
    {
      resourceMap := resourceMap - {index};
    }

    /** The ids, each once, in no particular order. */
    method GetIDs() returns (ids: seq<int>)
      ensures Visits(ids, resourceMap.Keys)
    {
      ids := [];
      var rest := resourceMap.Keys;
      while rest != {}
        invariant rest <= resourceMap.Keys && Visits(ids, resourceMap.Keys - rest)
        decreases |rest|
      {
        ghost var some := AnyOf(rest);
        var i :| i in rest;
        ids := ids + [i];
        rest := rest - {i};
      }
    }

    method PushBack(index: int, obj: T)
      modifies this
      ensures resourceMap ==
        if index in old(resourceMap) then old(resourceMap)[index := old(resourceMap)[index] + [obj]]
        else old(resourceMap)
    {
      if index in resourceMap {
        resourceMap := resourceMap[index := resourceMap[index] + [obj]];
      }
    }

    method Front(index: int) returns (front: Option<T>)
      ensures front ==
        if index in resourceMap && resourceMap[index] != [] then Some(resourceMap[index][0]) else None
    {
      if index in resourceMap && resourceMap[index] != [] {
        return Some(resourceMap[index][0]);
      }
      return None;
    }
  }
}

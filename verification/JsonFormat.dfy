/** The live report that the watchers append to: a record of pointers to per-kind lists. */
module JsonFormat {
  import opened Types
  import opened Json
  import opened Report

  class ObjectData {
    var created: seq<Entry>
    var deleted: seq<Entry>
    var updated: seq<Entry>

    constructor ()
      ensures Contents() == NO_CHANGES
    {
      created, deleted, updated := [], [], [];
    }

    function Contents(): Changes
      reads this
    {
      Changes(created, deleted, updated)
    }

    method AddToJsonFormatByState(newData: Entry, change: Change)
      modifies this
      ensures Contents() == old(Contents()).Append(change, newData)
    {
      match change {
        case CREATED => created := created + [newData];
        case DELETED => deleted := deleted + [newData];
        case UPDATED => updated := updated + [newData];
      }
    }

    static method Len(obj: ObjectData?) returns (sum: nat)
      ensures sum == if obj == null then 0 else |obj.created| + |obj.deleted| + |obj.updated|
      ensures sum == 0 <==> obj == null || obj.Contents() == NO_CHANGES
    {
      sum := 0;
      if obj == null {
        return;
      }
      sum := sum + |obj.created|;
      sum := sum + |obj.deleted|;
      sum := sum + |obj.updated|;
    }

    method Clear()
      modifies this
      ensures Contents() == NO_CHANGES
    {
      created := [];
      deleted := [];
      updated := [];
    }
  }

  /** The report record. `data` holds its six pointers; a kind that is not a key is a nil pointer. */
  class JsonFormat {
    var firstReport: bool
    var clusterAPIServerVersion: Option<Json>
    var cloudVendor: string
    var data: map<Kind, ObjectData>
    var installationData: Option<Json>

    constructor (firstReport: bool)
      ensures Valid() && Contents() == NO_ENTRIES && data == map[]
      ensures Scalars() == (firstReport, None, "", None)
    {
      this.firstReport := firstReport;
      clusterAPIServerVersion, cloudVendor, installationData := None, "", None;
      data := map[];
    }

    /** A struct copy: the copy points to the same lists. */
    constructor Copy(from: JsonFormat)
      ensures Scalars() == from.Scalars() && data == from.data
    {
      firstReport, cloudVendor := from.firstReport, from.cloudVendor;
      clusterAPIServerVersion, installationData := from.clusterAPIServerVersion, from.installationData;
      data := from.data;
    }

    /** Everything but the lists. */
    ghost function Scalars(): (bool, Option<Json>, string, Option<Json>)
      reads this
    {
      (firstReport, clusterAPIServerVersion, cloudVendor, installationData)
    }

    /** Different kinds never share their lists. */
    ghost predicate Valid()
      reads this
    {
      forall k, k' :: k in data && k' in data && k != k' ==> data[k] != data[k']
    }

    ghost function Of(kind: Kind): Changes
      reads this, data.Values
    {
      if kind in data then data[kind].Contents() else NO_CHANGES
    }

    ghost function Contents(): Lists
      reads this, data.Values
    {
      Lists(Of(NODE), Of(SERVICES), Of(MICROSERVICES), Of(PODS), Of(SECRETS), Of(NAMESPACES))
    }

    /** Makes the list object of a kind if it is missing. */
    method MakeKind(kind: Kind)
      requires Valid()
      modifies this`data
      ensures Valid() && kind in data
      ensures forall k <- data :: data[k] in old(data.Values) || fresh(data[k])
      ensures forall k: Kind :: Of(k) == old(Of(k))
    {
      if kind !in data {
        var obj := new ObjectData();
        data := data[kind := obj];
      }
    }

    method AddToJsonFormat(entry: Entry, kind: Kind, change: Change)
      requires Valid()
      modifies this, data.Values
      ensures Valid() && forall k <- data :: data[k] in old(data.Values) || fresh(data[k])
      ensures Wire() == Grown(old(Wire()), Delta(Slot(kind, change), entry))
    {
      MakeKind(kind);
      label Made:
      data[kind].AddToJsonFormatByState(entry, change);
      assert forall k: Kind :: k != kind ==> Of(k) == old@Made(Of(k));
      assert Of(kind) == old@Made(Of(kind)).Append(change, entry);
    }

    /** The value of one kind: absent exactly when its pointer is nil. */
    function PointerValue(kind: Kind, render: Entry -> Json): Option<Json>
      reads this, data.Values
    {
      if kind in data then Some(ObjectOf(data[kind].Contents(), render)) else None
    }

    /** `json.Marshal` of this report. */
    function Marshal(render: Entry -> Json): string
      reads this, data.Values
    {
      Print(Document(firstReport, [
        Field("clusterAPIServerVersion", clusterAPIServerVersion),
        Field("cloudVendor", VendorValue(cloudVendor)),
        Field("node", PointerValue(NODE, render)),
        Field("service", PointerValue(SERVICES, render)),
        Field("microservice", PointerValue(MICROSERVICES, render)),
        Field("pod", PointerValue(PODS, render)),
        Field("secret", PointerValue(SECRETS, render)),
        Field("namespace", PointerValue(NAMESPACES, render)),
        Field("installationData", installationData)]))
    }

    /** The report this object stands for, whether or not empty kinds have a pointer. */
    ghost function Wire(): Report
      reads this, data.Values
    {
      Report(firstReport, clusterAPIServerVersion, cloudVendor, Contents(), installationData)
    }

    /** Of these kinds, only those with something to report have a pointer. */
    ghost predicate Trimmed(kinds: set<Kind>)
      reads this, data.Values
    {
      forall kind <- kinds :: kind in data ==> data[kind].Contents() != NO_CHANGES
    }

    lemma TrimmedMarshal(render: Entry -> Json)
      requires Trimmed(KINDS)
      ensures Marshal(render) == Encode(Wire(), render)
    {
    }

    method MarshalTrimmed(render: Entry -> Json) returns (json: string)
      requires Trimmed(KINDS)
      ensures json == Encode(Wire(), render)
    {
      TrimmedMarshal(render);
      json := Marshal(render);
    }

    /** Sets the pointer of one kind to nil if it has nothing to report. The lists themselves are not touched, and
        the report reads the same. `done`: the kinds this has been done for. */
    method DropIfEmpty(kind: Kind, ghost done: set<Kind>)
      requires Trimmed(done)
      modifies this`data
      ensures data.Values <= old(data.Values)
      ensures Wire() == old(Wire()) && Trimmed(done + {kind})
    {
      var len := ObjectData.Len(if kind in data then data[kind] else null);
      if len == 0 {
        data := data - {kind};
      }
      assert forall k: Kind :: Of(k) == old(Of(k));
    }

    method Trim()
      modifies this`data
      ensures data.Values <= old(data.Values)
      ensures Wire() == old(Wire()) && Trimmed(KINDS)
    {
      ghost var done := {};
      DropIfEmpty(NODE, done);
      done := done + {NODE};
      DropIfEmpty(SERVICES, done);
      done := done + {SERVICES};
      DropIfEmpty(SECRETS, done);
      done := done + {SECRETS};
      DropIfEmpty(PODS, done);
      done := done + {PODS};
      DropIfEmpty(MICROSERVICES, done);
      done := done + {MICROSERVICES};
      DropIfEmpty(NAMESPACES, done);
      done := done + {NAMESPACES};
      assert done == KINDS;
    }

    method TrimAndMarshal(render: Entry -> Json) returns (json: string)
      modifies this`data
      ensures json == Encode(old(Wire()), render)
    {
      Trim();
      json := MarshalTrimmed(render);
    }

    method ClearKind(kind: Kind)
      requires Valid()
      modifies data.Values
      ensures forall k: Kind :: Of(k) == if k == kind then NO_CHANGES else old(Of(k))
    {
      if kind in data {
        data[kind].Clear();
      }
    }

    method DeleteJsonData()
      requires Valid()
      modifies data.Values
      ensures Contents() == NO_ENTRIES
    {
      ClearKind(NODE);
      ClearKind(PODS);
      ClearKind(SERVICES);
      ClearKind(MICROSERVICES);
      ClearKind(SECRETS);
      ClearKind(NAMESPACES);
    }
  }
}

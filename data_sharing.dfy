/** The data-sharing chaincode: an indexed key-value store kept on the host's
    state store. Each operation works step by step through the stub and is
    proved against its function in Semantics. */
module DataSharing {
  import opened Shim
  import opened Semantics

  datatype Payload =
    | NoPayload                        // shim.Success(nil)
    | StoredValue(value: Option<Bytes>) // the raw bytes key_search found
    | KeyArray(keys: seq<Bytes>)       // the keys value_search collected, before JSON encoding

  datatype Response = Success(payload: Payload) | Error(failure: Failure)

  predicate Distinct(s: seq<Bytes>)
  {
    forall i, j :: 0 <= i < j < |s| ==> s[i] != s[j]
  }

  function Elements(s: seq<Bytes>): set<Bytes>
  {
    set x | x in s
  }

  /** The response answers the reply: a key list answers a key set when it
      lists every key of the set exactly once and nothing else. */
  ghost predicate Conforms(r: Response, reply: Reply)
  {
    match reply
    case Done => r == Success(NoPayload)
    case Value(v) => r == Success(StoredValue(v))
    case KeySet(keys) => r.Success? && r.payload.KeyArray? && Distinct(r.payload.keys) && Elements(r.payload.keys) == keys
    case Failed(f) => r == Error(f)
  }

  /** keys: the index read from the reserved key. The second ensures spells
      out that an absent index reads as the empty set. */
  method Keys(stub: Stub) returns (r: Result<set<Bytes>>)
    modifies stub`trace
    ensures r == LoadIndex(stub.index)
    ensures r.Ok? && stub.index.Absent? ==> r.value == {}
    ensures stub.trace == old(stub.trace) + [Read(KeyList)]
  {
    var slot := stub.GetKeyList();
    match slot
    case Absent => r := Ok({});
    case Stored(keys) => r := Ok(keys);
    case Undecodable => r := Err(UndecodableIndex);
  }

  /** set: add the key to the index, write the index back, then write the entry. */
  method Set(stub: Stub, key: Bytes, value: Bytes) returns (r: Response)
    requires stub.Valid() && key != KeyList
    modifies stub
    ensures stub.Valid()
    ensures var o := SetSpec(old(stub.Snapshot()), key, value); stub.Snapshot() == o.state && Conforms(r, o.reply)
    ensures r.Success? ==> key in stub.index.keys && stub.entries == old(stub.entries)[key := value]
    ensures r.Error? ==> stub.Snapshot() == old(stub.Snapshot())
    ensures stub.trace == old(stub.trace) + SetAccesses(old(stub.index), key)
  {
    var keyMap := Keys(stub);
    if keyMap.Err? {
      return Error(keyMap.failure);
    }
    stub.PutKeyList(keyMap.value + {key});
    stub.PutState(key, value);
    return Success(NoPayload);
  }

  method Insert(stub: Stub, args: seq<Bytes>) returns (r: Response)
    requires stub.Valid()
    modifies stub
    ensures stub.Valid()
    ensures var o := InsertSpec(old(stub.Snapshot()), args); stub.Snapshot() == o.state && Conforms(r, o.reply)
    ensures stub.trace == old(stub.trace) + Accesses(old(stub.index), InsertName, args)
  {
    if |args| != 2 {
      return Error(WrongArgCount(2));
    }
    var key := args[0];
    if key == KeyList {
      return Error(ReservedKey);
    }
    if |key| == 0 {
      return Error(EmptyKey);
    }
    var oldValue := stub.GetState(key);
    var newValue := args[1];
    var value: Bytes;
    if oldValue.None? || |oldValue.value| == 0 {
      value := newValue;
    } else {
      value := oldValue.value + [Semicolon] + newValue;
    }
    r := Set(stub, key, value);
  }

  method Update(stub: Stub, args: seq<Bytes>) returns (r: Response)
    requires stub.Valid()
    modifies stub
    ensures stub.Valid()
    ensures var o := UpdateSpec(old(stub.Snapshot()), args); stub.Snapshot() == o.state && Conforms(r, o.reply)
    ensures stub.trace == old(stub.trace) + Accesses(old(stub.index), UpdateName, args)
  {
    if |args| != 2 {
      return Error(WrongArgCount(2));
    }
    var key := args[0];
    if key == KeyList {
      return Error(ReservedKey);
    }
    if |key| == 0 {
      return Error(EmptyKey);
    }
    r := Set(stub, key, args[1]);
  }

  method KeySearch(stub: Stub, args: seq<Bytes>) returns (r: Response)
    modifies stub`trace
    ensures Conforms(r, KeySearchSpec(stub.Snapshot(), args).reply)
    ensures stub.trace == old(stub.trace) + Accesses(stub.index, KeySearchName, args)
  {
    if |args| != 1 {
      return Error(WrongArgCount(1));
    }
    var key := args[0];
    if key == KeyList {
      return Error(ReservedKey);
    }
    if |key| == 0 {
      return Error(EmptyKey);
    }
    var value := stub.GetState(key);
    return Success(StoredValue(value));
  }

  /** equals: byte-for-byte comparison, failing early on the first difference. */
  method Equals(a: Bytes, b: Bytes) returns (same: bool)
    ensures same <==> |a| == |b| && forall i :: 0 <= i < |a| ==> a[i] == b[i]
    ensures same <==> a == b
  {
    if |a| != |b| {
      return false;
    }
    var i := 0;
    while i < |a|
      invariant 0 <= i <= |a|
      invariant forall j :: 0 <= j < i ==> a[j] == b[j]
    {
      if b[i] != a[i] {
        return false;
      }
      i := i + 1;
    }
    return true;
  }

  /** value_search: read every indexed key once, in an order the model leaves
      open (`visited`), and collect those whose bytes equal the target. */
  method ValueSearch(stub: Stub, args: seq<Bytes>) returns (r: Response, ghost visited: seq<Bytes>)
    requires stub.Valid()
    modifies stub`trace
    ensures Conforms(r, ValueSearchSpec(stub.Snapshot(), args).reply)
    ensures |args| != 1 ==> stub.trace == old(stub.trace)
    ensures |args| == 1 ==> stub.trace == old(stub.trace) + [Read(KeyList)] + ReadsOf(visited)
    ensures |args| == 1 && LoadIndex(stub.index).Ok? ==> Distinct(visited) && Elements(visited) == LoadIndex(stub.index).value
    ensures LoadIndex(stub.index).Err? ==> visited == []
  {
    visited := [];
    if |args| != 1 {
      return Error(WrongArgCount(1)), visited;
    }
    var keyMap := Keys(stub);
    if keyMap.Err? {
      return Error(keyMap.failure), visited;
    }
    var target := args[0];
    var keys: seq<Bytes> := [];
    var remaining := keyMap.value;
    ghost var start := stub.trace;
    while remaining != {}
      invariant remaining <= keyMap.value
      invariant Distinct(visited) && Elements(visited) == keyMap.value - remaining
      invariant Distinct(keys) && Elements(keys) == Matches(stub.Snapshot(), keyMap.value - remaining, target)
      invariant stub.trace == start + ReadsOf(visited)
      decreases remaining
    {
      var key :| key in remaining;
      ghost var done := keyMap.value - remaining;
      var value := stub.GetState(key);
      var same := Equals(Raw(value), target);
      assert key !in visited && key !in keys by {
        assert key !in Elements(visited) && key !in Elements(keys);
      }
      assert Matches(stub.Snapshot(), done + {key}, target)
          == Matches(stub.Snapshot(), done, target) + if same then {key} else {};
      if same {
        keys := keys + [key];
      }
      assert Elements(keys) == Matches(stub.Snapshot(), done + {key}, target);
      remaining := remaining - {key};
      assert keyMap.value - remaining == done + {key};
      assert (visited + [key])[..|visited|] == visited;
      visited := visited + [key];
      assert Elements(visited) == done + {key};
    }
    return Success(KeyArray(keys)), visited;
  }

  /** Invoke: the single entry point, dispatching on the operation name. */
  method Invoke(stub: Stub, name: Bytes, args: seq<Bytes>) returns (r: Response)
    requires stub.Valid()
    modifies stub
    ensures stub.Valid()
    ensures var o := Step(old(stub.Snapshot()), name, args); stub.Snapshot() == o.state && Conforms(r, o.reply)
    ensures name != ValueSearchName ==> stub.trace == old(stub.trace) + Accesses(old(stub.index), name, args)
    ensures name == ValueSearchName ==> forall i | |old(stub.trace)| <= i < |stub.trace| :: stub.trace[i].Read?
    ensures !ArityMatches(name, args) ==> stub.trace == old(stub.trace)
  {
    if name == InsertName {
      r := Insert(stub, args);
    } else if name == UpdateName {
      r := Update(stub, args);
    } else if name == KeySearchName {
      r := KeySearch(stub, args);
    } else if name == ValueSearchName {
      ghost var visited;
      r, visited := ValueSearch(stub, args);
      ReadsOfOnlyReads(visited);
    } else {
      r := Error(UnknownFunction);
    }
  }
}

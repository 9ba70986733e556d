/** The host's transactional state store, as the data-sharing chaincode reaches
    it through its stub (GetState / PutState). */
module Shim {

  /** Go strings and byte slices are both plain byte sequences, so keys,
      operation names, arguments and stored values are all modelled as Bytes. */
  newtype byte = x: int | 0 <= x < 256
  type Bytes = seq<byte>

  datatype Option<+T> = None | Some(value: T)

  /** "_KEY_LIST_", the reserved key under which the key index is kept. */
  const KeyList: Bytes := [95, 75, 69, 89, 95, 76, 73, 83, 84, 95]

  /** What the reserved key holds: nothing yet, a key index that decodes, or
      bytes that do not decode as an index. */
  datatype IndexSlot = Absent | Stored(keys: set<Bytes>) | Undecodable

  /** One call the chaincode makes on the store. */
  datatype Access = Read(key: Bytes) | Write(key: Bytes)

  /** The ledger: every user entry, and the reserved slot beside them. */
  datatype State = State(entries: map<Bytes, Bytes>, index: IndexSlot)

  /** The reserved key is never a user entry and never indexed. */
  predicate WellFormed(s: State)
  {
    KeyList !in s.entries && (s.index.Stored? ==> KeyList !in s.index.keys)
  }

  /** GetState on a user key: nil when nothing is stored. */
  function Lookup(s: State, key: Bytes): Option<Bytes>
  {
    if key in s.entries then Some(s.entries[key]) else None
  }

  class Stub {
    var entries: map<Bytes, Bytes>
    var index: IndexSlot
    /** Every GetState and PutState made so far, in order. */
    var trace: seq<Access>

    function Snapshot(): State
      reads this
    {
      State(entries, index)
    }

    predicate Valid()
      reads this
    {
      WellFormed(Snapshot())
    }

    constructor (entries: map<Bytes, Bytes>, index: IndexSlot)
      requires WellFormed(State(entries, index))
      ensures Valid()
      ensures Snapshot() == State(entries, index) && trace == []
    {
      this.entries := entries;
      this.index := index;
      this.trace := [];
    }

    method GetState(key: Bytes) returns (v: Option<Bytes>)
      requires key != KeyList
      modifies this`trace
      ensures v == Lookup(Snapshot(), key)
      ensures trace == old(trace) + [Read(key)]
    {
      v := if key in entries then Some(entries[key]) else None;
      trace := trace + [Read(key)];
    }

    method PutState(key: Bytes, value: Bytes)
      requires key != KeyList
      modifies this`entries, this`trace
      ensures entries == old(entries)[key := value]
      ensures trace == old(trace) + [Write(key)]
    {
      entries := entries[key := value];
      trace := trace + [Write(key)];
    }

    /** GetState on the reserved key. */
    method GetKeyList() returns (slot: IndexSlot)
      modifies this`trace
      ensures slot == index
      ensures trace == old(trace) + [Read(KeyList)]
    {
      slot := index;
      trace := trace + [Read(KeyList)];
    }

    /** PutState on the reserved key, with the index already encoded. */
    method PutKeyList(keys: set<Bytes>)
      modifies this`index, this`trace
      ensures index == Stored(keys)
      ensures trace == old(trace) + [Write(KeyList)]
    {
      index := Stored(keys);
      trace := trace + [Write(KeyList)];
    }
  }
}

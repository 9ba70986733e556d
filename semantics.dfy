/** What each chaincode operation does to the ledger and what it answers, as
    pure functions of the ledger before the call. */
module Semantics {
  import opened Shim

  /** ";", the separator insert puts between the prior value and the new one. */
  const Semicolon: byte := 59

  const InsertName: Bytes := [105, 110, 115, 101, 114, 116]                          // "insert"
  const UpdateName: Bytes := [117, 112, 100, 97, 116, 101]                           // "update"
  const KeySearchName: Bytes := [107, 101, 121, 95, 115, 101, 97, 114, 99, 104]      // "key_search"
  const ValueSearchName: Bytes := [118, 97, 108, 117, 101, 95, 115, 101, 97, 114, 99, 104]  // "value_search"

  datatype Failure =
    | WrongArgCount(expected: nat)  // "Incorrect number of arguments. Expecting n."
    | ReservedKey                   // the key is "_KEY_LIST_"
    | EmptyKey                      // the key is the empty string
    | UndecodableIndex              // the reserved key holds no valid index
    | UnknownFunction               // not one of the four operation names

  datatype Result<+T> = Ok(value: T) | Err(failure: Failure)

  /** The answer of an invocation. value_search is answered by the SET of
      matching keys: the order in which it lists them is that of Go's map
      iteration, which is unspecified. */
  datatype Reply =
    | Done
    | Value(stored: Option<Bytes>)
    | KeySet(keys: set<Bytes>)
    | Failed(failure: Failure)

  datatype Outcome = Outcome(state: State, reply: Reply)

  /** A nil slice and an empty one are both of length zero. */
  function Raw(v: Option<Bytes>): Bytes
  {
    match v
    case None => []
    case Some(b) => b
  }

  /** The key index as `keys` reads it: an absent index is the empty set. */
  function LoadIndex(slot: IndexSlot): Result<set<Bytes>>
  {
    match slot
    case Absent => Ok({})
    case Stored(keys) => Ok(keys)
    case Undecodable => Err(UndecodableIndex)
  }

  /** The key checks of insert, update and key_search, reserved key first. */
  function KeyCheck(key: Bytes): Option<Failure>
  {
    if key == KeyList then Some(ReservedKey)
    else if |key| == 0 then Some(EmptyKey)
    else None
  }

  /** The value insert stores, given what was stored before. */
  function History(prior: Option<Bytes>, v: Bytes): Bytes
  {
    if |Raw(prior)| == 0 then v else Raw(prior) + [Semicolon] + v
  }

  /** set: index first, then the entry. */
  function SetSpec(s: State, key: Bytes, value: Bytes): Outcome
  {
    match LoadIndex(s.index)
    case Err(f) => Outcome(s, Failed(f))
    case Ok(keys) => Outcome(State(s.entries[key := value], Stored(keys + {key})), Done)
  }

  function InsertSpec(s: State, args: seq<Bytes>): Outcome
  {
    if |args| != 2 then Outcome(s, Failed(WrongArgCount(2)))
    else if KeyCheck(args[0]).Some? then Outcome(s, Failed(KeyCheck(args[0]).value))
    else SetSpec(s, args[0], History(Lookup(s, args[0]), args[1]))
  }

  function UpdateSpec(s: State, args: seq<Bytes>): Outcome
  {
    if |args| != 2 then Outcome(s, Failed(WrongArgCount(2)))
    else if KeyCheck(args[0]).Some? then Outcome(s, Failed(KeyCheck(args[0]).value))
    else SetSpec(s, args[0], args[1])
  }

  function KeySearchSpec(s: State, args: seq<Bytes>): Outcome
  {
    if |args| != 1 then Outcome(s, Failed(WrongArgCount(1)))
    else if KeyCheck(args[0]).Some? then Outcome(s, Failed(KeyCheck(args[0]).value))
    else Outcome(s, Value(Lookup(s, args[0])))
  }

  /** The indexed keys whose stored bytes equal the target. */
  function Matches(s: State, keys: set<Bytes>, target: Bytes): set<Bytes>
  {
    set k | k in keys && Raw(Lookup(s, k)) == target
  }

  function ValueSearchSpec(s: State, args: seq<Bytes>): Outcome
  {
    if |args| != 1 then Outcome(s, Failed(WrongArgCount(1)))
    else match LoadIndex(s.index)
      case Err(f) => Outcome(s, Failed(f))
      case Ok(keys) => Outcome(s, KeySet(Matches(s, keys, args[0])))
  }

  /** Invoke: dispatch on the operation name. */
  function Step(s: State, name: Bytes, args: seq<Bytes>): Outcome
  {
    if name == InsertName then InsertSpec(s, args)
    else if name == UpdateName then UpdateSpec(s, args)
    else if name == KeySearchName then KeySearchSpec(s, args)
    else if name == ValueSearchName then ValueSearchSpec(s, args)
    else Outcome(s, Failed(UnknownFunction))
  }

  datatype Call = Call(name: Bytes, args: seq<Bytes>)

  /** The ledger after a sequence of invocations. */
  function Run(s: State, calls: seq<Call>): State
    decreases |calls|
  {
    if calls == [] then s else Run(Step(s, calls[0].name, calls[0].args).state, calls[1..])
  }

  /** The argument count the named operation expects; unknown names match none. */
  predicate ArityMatches(name: Bytes, args: seq<Bytes>)
  {
    || ((name == InsertName || name == UpdateName) && |args| == 2)
    || ((name == KeySearchName || name == ValueSearchName) && |args| == 1)
  }

  /** Every stored user entry is named in the index, the invariant value_search
      relies on to find every match. */
  ghost predicate Indexed(s: State)
  {
    LoadIndex(s.index).Ok? && s.entries.Keys <= LoadIndex(s.index).value
  }

  /** The index from s to t never shrinks, and an undecodable index blocks every write. */
  ghost predicate IndexGrows(s: State, t: State)
  {
    && (LoadIndex(s.index).Ok? ==> LoadIndex(t.index).Ok? && LoadIndex(s.index).value <= LoadIndex(t.index).value)
    && (s.index.Undecodable? ==> t == s)
  }

  /** The store calls of set: read the index, then (when it decodes) write the
      index and only then the entry. */
  function SetAccesses(slot: IndexSlot, key: Bytes): seq<Access>
  {
    [Read(KeyList)] + if LoadIndex(slot).Ok? then [Write(KeyList), Write(key)] else []
  }

  /** The store calls of insert, update and key_search, and of an unknown name
      or a wrong argument count. A well-formed value_search call reads every
      indexed key in an open order, so it has no single list here. */
  function Accesses(slot: IndexSlot, name: Bytes, args: seq<Bytes>): seq<Access>
    requires name != ValueSearchName || !ArityMatches(name, args)
  {
    if !ArityMatches(name, args) || KeyCheck(args[0]).Some? then []
    else if name == InsertName then [Read(args[0])] + SetAccesses(slot, args[0])
    else if name == UpdateName then SetAccesses(slot, args[0])
    else [Read(args[0])]
  }

  /** One read per key, in the given order. */
  function ReadsOf(keys: seq<Bytes>): seq<Access>
  {
    if keys == [] then [] else ReadsOf(keys[..|keys| - 1]) + [Read(keys[|keys| - 1])]
  }

  lemma {:induction false} ReadsOfOnlyReads(keys: seq<Bytes>)
    ensures |ReadsOf(keys)| == |keys|
    ensures forall i | 0 <= i < |keys| :: ReadsOf(keys)[i] == Read(keys[i])
  {
    if keys != [] {
      ReadsOfOnlyReads(keys[..|keys| - 1]);
    }
  }
}

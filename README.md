# Data-sharing chaincode: an indexed key-value store

This project models the core of the `data-sharing` Hyperledger Fabric
chaincode. The chaincode keeps a key-value store on the peer's state store.
Beside the entries it keeps a key index: the set of every key it has ever
written, stored under the reserved key `_KEY_LIST_`. Four operations are
reachable through `Invoke`:

- `insert` keeps history. When the key already holds non-empty bytes, it stores `old ; new`.
- `update` overwrites.
- `key_search` reads one key.
- `value_search` reads every indexed key and returns those whose bytes equal the target.

Both writes go through `set`. It reads the index, adds the key, writes the
index back, and only then writes the entry.

Layout:

- `shim.dfy` (module `Shim`) is the state store as the stub exposes it. The class `Stub` has the user
  entries (`map<Bytes, Bytes>`), the reserved slot (`IndexSlot`: absent, a decoded key set, or bytes
  that do not decode), and a `trace` of every GetState/PutState in order.
- `semantics.dfy` (module `Semantics`) holds each operation as a pure function of the ledger
  (`InsertSpec`, `UpdateSpec`, `KeySearchSpec`, `ValueSearchSpec`, the dispatch `Step`, and `Run` over a
  sequence of invocations). The answer of `value_search` is a set of keys, because the chaincode lists
  them in Go's map order, which is unspecified.
- `data_sharing.dfy` (module `DataSharing`) holds the chaincode's functions as methods that work
  step by step on the `Stub`. Each is proved to leave the ledger its function prescribes, to answer
  what it prescribes (`Conforms`), and to make exactly the listed store calls.
- `properties.dfy` (module `Properties`) holds what the operations promise together. These lemmas
  are proved about the functions in `Semantics`.

Go strings and byte slices are both byte sequences. Keys, operation names,
arguments and values are therefore all `seq<byte>`, and the constants
(`"_KEY_LIST_"`, `"insert"`, `";"`, ...) are written as byte literals.

Three points about the code:

- Refused keys get two distinct errors. A reserved key gets `ReservedKey` and is checked first; an empty key gets `EmptyKey`.
- There is no encode error. Encoding the index, a map from string to byte, cannot fail in the code.
- The invariant proved is that every stored entry is indexed (`Indexed`). The index may name more keys than are stored, and the reverse inclusion is not claimed: the host may drop an entry written with empty bytes while its key stays in the index.

## Model

| member | source | states |
|---|---|---|
| `DataSharing.Invoke` | chaincode/data-sharing/data-sharing.go:96-111 | dispatches the four names. The ledger and answer are `Step`'s. An unknown name fails with `UnknownFunction`. A wrong name or argument count makes no store call. value_search makes only reads. The stub stays well formed. |
| `DataSharing.Keys` | chaincode/data-sharing/data-sharing.go:113-126 | reads only the reserved key. Absent means the empty set, a stored index gives its keys, and undecodable bytes give `UndecodableIndex`. |
| `DataSharing.Set` | chaincode/data-sharing/data-sharing.go:128-147 | on success the key is indexed and holds the value, and every other entry is unchanged. On failure nothing changes. The store calls are exactly: read the index, write the index, then write the entry. |
| `DataSharing.Insert` | chaincode/data-sharing/data-sharing.go:149-173 | follows `InsertSpec`: arity check, then reserved key, then empty key, then one read of the key, then `set` with the history value. The exact store calls are given. |
| `DataSharing.Update` | chaincode/data-sharing/data-sharing.go:175-189 | follows `UpdateSpec`: the same checks, then `set` with exactly the new bytes. The exact store calls are given. |
| `DataSharing.KeySearch` | chaincode/data-sharing/data-sharing.go:191-208 | follows `KeySearchSpec`. It changes only the trace, and returns the bytes stored for the key verbatim (nil when absent) after one read. |
| `DataSharing.Equals` | chaincode/data-sharing/data-sharing.go:210-220 | true exactly when the lengths agree and every position holds the same byte, which is exactly sequence equality. |
| `DataSharing.ValueSearch` | chaincode/data-sharing/data-sharing.go:222-248 | returns a list holding each matching indexed key exactly once and nothing else. It reads the index, then every indexed key once in some order. It writes nothing. |
| `Properties.HistoryKeepsPrior` | chaincode/data-sharing/data-sharing.go:164-170 | insert's value is exactly the new bytes when the prior is nil or empty. Otherwise it is the prior bytes, then `;`, then the new bytes. |
| `Properties.WriteEffect` | chaincode/data-sharing/data-sharing.go:128-147 | after a successful insert or update of k: k is indexed, the index gains only k, k holds the history or the new bytes, and no other key changes. |
| `Properties.FailureChangesNothing` | chaincode/data-sharing/data-sharing.go:96-111 | every failed invocation leaves the ledger unchanged. |
| `Properties.WrongArityFails` | chaincode/data-sharing/data-sharing.go:100-225 | a wrong argument count fails with `WrongArgCount(2 or 1)` and an unknown name with `UnknownFunction`. Neither makes a store call. |
| `Properties.BadKeyRefused` | chaincode/data-sharing/data-sharing.go:150-201 | insert, update and key_search refuse `_KEY_LIST_` (`ReservedKey`) and the empty key (`EmptyKey`). The ledger stays unchanged and no store call is made. |
| `Properties.SearchesChangeNothing` | chaincode/data-sharing/data-sharing.go:191-248 | key_search and value_search leave the ledger unchanged. |
| `Properties.KeySearchVerbatim` | chaincode/data-sharing/data-sharing.go:202-207 | key_search answers the stored bytes of the key, or nil. |
| `Properties.UpdateThenKeySearch` | chaincode/data-sharing/data-sharing.go:175-208 | update(k, v) followed by key_search(k) answers exactly v. |
| `Properties.InsertFreshIsUpdate` | chaincode/data-sharing/data-sharing.go:166-168 | on a key holding nil or empty bytes, insert and update give the same ledger and answer. |
| `Properties.InsertTwice` | chaincode/data-sharing/data-sharing.go:160-172 | on a fresh key, insert a (non-empty) then insert b stores `a;b`. |
| `Properties.InsertNotIdempotent` | chaincode/data-sharing/data-sharing.go:166-170 | repeating an insert on a key holding bytes makes the stored value strictly longer. |
| `Properties.StepPreserves` | chaincode/data-sharing/data-sharing.go:128-147 | one invocation keeps the reserved key out of the entries and the index. It keeps every entry indexed and never shrinks the index. An undecodable index blocks every write. |
| `Properties.RunPreserves` | chaincode/data-sharing/data-sharing.go:113-147 | the same over any sequence of invocations, by induction on the sequence. |
| `Properties.FromEmptyAlwaysIndexed` | chaincode/data-sharing/data-sharing.go:113-126 | from an empty ledger without an index, every stored entry stays indexed after any sequence of invocations. |
| `Properties.ValueSearchExact` | chaincode/data-sharing/data-sharing.go:226-241 | value_search answers a key set, not a failure. A key is in it exactly when it is indexed and its bytes equal the target, with nil counting as empty. |
| `Properties.ValueSearchComplete` | chaincode/data-sharing/data-sharing.go:222-248 | when every entry is indexed, value_search for non-empty bytes answers exactly the entries holding them. With no match it answers the empty set. |
| `Properties.ValueSearchFindsWritten` | chaincode/data-sharing/data-sharing.go:222-248 | after a successful insert or update of k, value_search for the bytes k now holds includes k. |
| `Properties.AliceScenario` | chaincode/data-sharing/data-sharing.go:96-248 | from an empty ledger: insert alice 10 reads back 10. Insert alice 20 reads back `10;20`. Update alice 99 reads back 99, and value_search 99 answers {alice}. |

## Left out

- JSON encoding and decoding of the index and of value_search's key list are not modelled. The index is a `set` and the list a `seq`. A stored index that does not decode is the abstract slot `Undecodable`.
- Keys that are not valid UTF-8 are not modelled. JSON encoding would replace their invalid bytes, so the index would name a different key. The model assumes the index round-trips every key exactly.
- GetState and PutState are treated as infallible, so the store-error branches (lines 115-117, 139-141, 143-145, 161-163, 203-205, 235-237) are not modelled. The host's atomic commit of an invocation, concurrent endorsement and the platform's handling of empty values on commit are not modelled either.
- Init, main, the shim/protobuf response plumbing and the `fmt` logging are host I/O and are not modelled.
- PublishData, Hash (sha256, hex), the JSON PutState helper and the `time.Now()` timestamp are not modelled. They are foreign library calls and clock reads, and Invoke cannot reach them.
- The "not impl" stubs ShowMetaData, ShowPendingRequest, HandleRequest, ShowInfoAboutData and RequestData have no behaviour and are not modelled.
- DataSharing.ValueSearch: the order of the returned keys is not stated. Go's map iteration order is unspecified, so the contract gives the set of keys and their distinctness only.
- DataSharing.Invoke: for value_search the contract says only that every store call is a read. The exact reads, the index and then each indexed key once, are stated on DataSharing.ValueSearch.

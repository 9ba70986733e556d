/** What the data-sharing chaincode promises across its operations, proved
    about the functions in Semantics (which the methods in DataSharing are
    proved to follow). */
module Properties {
  import opened Shim
  import opened Semantics

  /** A key the operations accept. */
  predicate UserKey(k: Bytes)
  {
    KeyCheck(k).None?
  }

  /** insert never loses history: with a prior non-empty value the stored
      bytes are the prior value, one ";" and the new value; otherwise exactly
      the new value. */
  lemma HistoryKeepsPrior(prior: Option<Bytes>, v: Bytes)
    ensures |Raw(prior)| == 0 ==> History(prior, v) == v
    ensures |Raw(prior)| > 0 ==>
      && |History(prior, v)| == |Raw(prior)| + 1 + |v|
      && History(prior, v)[..|Raw(prior)|] == Raw(prior)
      && History(prior, v)[|Raw(prior)|] == Semicolon
      && History(prior, v)[|Raw(prior)| + 1..] == v
  {
  }

  /** After a successful write of k through insert or update: k is indexed,
      k holds the written bytes, no other key changes and the index only
      gains k. */
  lemma WriteEffect(s: State, name: Bytes, args: seq<Bytes>)
    requires name == InsertName || name == UpdateName
    requires Step(s, name, args).reply == Done
    ensures |args| == 2 && UserKey(args[0]) && LoadIndex(s.index).Ok?
    ensures var t := Step(s, name, args).state;
      && t.index == Stored(LoadIndex(s.index).value + {args[0]})
      && Lookup(t, args[0]) == Some(if name == InsertName then History(Lookup(s, args[0]), args[1]) else args[1])
      && forall k :: k != args[0] ==> Lookup(t, k) == Lookup(s, k)
  {
  }

  /** Every failed invocation leaves the ledger as it was. */
  lemma FailureChangesNothing(s: State, name: Bytes, args: seq<Bytes>)
    requires Step(s, name, args).reply.Failed?
    ensures Step(s, name, args).state == s
  {
  }

  /** The argument count is checked first: a wrong count (or an unknown name)
      fails and makes no store access at all. */
  lemma WrongArityFails(s: State, name: Bytes, args: seq<Bytes>)
    requires !ArityMatches(name, args)
    ensures Step(s, name, args) == Outcome(s, Failed(
      if name == InsertName || name == UpdateName then WrongArgCount(2)
      else if name == KeySearchName || name == ValueSearchName then WrongArgCount(1)
      else UnknownFunction))
    ensures Accesses(s.index, name, args) == []
  {
  }

  /** The reserved key and the empty key are refused by insert, update and
      key_search, without a store access. */
  lemma BadKeyRefused(s: State, name: Bytes, args: seq<Bytes>)
    requires name == InsertName || name == UpdateName || name == KeySearchName
    requires ArityMatches(name, args) && !UserKey(args[0])
    ensures Step(s, name, args) == Outcome(s, Failed(if args[0] == KeyList then ReservedKey else EmptyKey))
    ensures Accesses(s.index, name, args) == []
  {
  }

  /** key_search and value_search only read. */
  lemma SearchesChangeNothing(s: State, args: seq<Bytes>)
    ensures KeySearchSpec(s, args).state == s && ValueSearchSpec(s, args).state == s
  {
  }

  /** key_search answers the stored bytes verbatim (nil when nothing is stored). */
  lemma KeySearchVerbatim(s: State, k: Bytes)
    requires UserKey(k)
    ensures Step(s, KeySearchName, [k]).reply == Value(if k in s.entries then Some(s.entries[k]) else None)
  {
  }

  /** update then key_search gives back exactly the written bytes. */
  lemma UpdateThenKeySearch(s: State, k: Bytes, v: Bytes)
    requires UserKey(k) && LoadIndex(s.index).Ok?
    ensures Step(Step(s, UpdateName, [k, v]).state, KeySearchName, [k]).reply == Value(Some(v))
  {
  }

  /** On a key that holds nothing or empty bytes, insert and update leave the
      same ledger and give the same answer. */
  lemma InsertFreshIsUpdate(s: State, k: Bytes, v: Bytes)
    requires |Raw(Lookup(s, k))| == 0
    ensures Step(s, InsertName, [k, v]) == Step(s, UpdateName, [k, v])
  {
  }

  /** Two inserts on a fresh key accumulate: a, then b, gives "a;b". */
  lemma InsertTwice(s: State, k: Bytes, a: Bytes, b: Bytes)
    requires UserKey(k) && LoadIndex(s.index).Ok?
    requires |Raw(Lookup(s, k))| == 0 && |a| > 0
    ensures var s1 := Step(s, InsertName, [k, a]).state;
      Step(Step(s1, InsertName, [k, b]).state, KeySearchName, [k]).reply == Value(Some(a + [Semicolon] + b))
  {
  }

  /** insert is not idempotent: repeating one on a key holding bytes makes
      the stored value strictly longer. */
  lemma InsertNotIdempotent(s: State, k: Bytes, v: Bytes)
    requires UserKey(k) && LoadIndex(s.index).Ok? && |Raw(Lookup(s, k))| > 0
    ensures var t := Step(s, InsertName, [k, v]).state;
      |Raw(Lookup(t, k))| > |Raw(Lookup(s, k))|
  {
  }

  /** One invocation keeps the ledger well formed, keeps every stored entry
      indexed, and never shrinks the index. */
  lemma StepPreserves(s: State, name: Bytes, args: seq<Bytes>)
    requires WellFormed(s)
    ensures var t := Step(s, name, args).state;
      WellFormed(t) && (Indexed(s) ==> Indexed(t)) && IndexGrows(s, t)
  {
  }

  /** The same over any sequence of invocations. */
  lemma {:induction false} RunPreserves(s: State, calls: seq<Call>)
    requires WellFormed(s)
    ensures var t := Run(s, calls);
      WellFormed(t) && (Indexed(s) ==> Indexed(t)) && IndexGrows(s, t)
    decreases |calls|
  {
    if calls != [] {
      var s1 := Step(s, calls[0].name, calls[0].args).state;
      StepPreserves(s, calls[0].name, calls[0].args);
      RunPreserves(s1, calls[1..]);
    }
  }

  /** From an empty ledger (no index yet) every sequence of invocations leaves
      every stored entry indexed. */
  lemma FromEmptyAlwaysIndexed(calls: seq<Call>)
    ensures Indexed(Run(State(map[], Absent), calls))
  {
    RunPreserves(State(map[], Absent), calls);
  }

  /** value_search answers exactly the indexed keys whose bytes equal the target. */
  lemma ValueSearchExact(s: State, t: Bytes)
    requires LoadIndex(s.index).Ok?
    ensures Step(s, ValueSearchName, [t]).reply.KeySet?
    ensures forall k :: k in Step(s, ValueSearchName, [t]).reply.keys <==>
      k in LoadIndex(s.index).value && Raw(Lookup(s, k)) == t
  {
  }

  /** When the index covers every entry, value_search for non-empty bytes
      finds exactly the entries holding them; with none it answers the empty
      set, not a failure. */
  lemma ValueSearchComplete(s: State, t: Bytes)
    requires Indexed(s) && |t| > 0
    ensures Step(s, ValueSearchName, [t]).reply == KeySet(set k | k in s.entries && s.entries[k] == t)
    ensures (forall k :: k in s.entries ==> s.entries[k] != t) ==> Step(s, ValueSearchName, [t]).reply == KeySet({})
  {
  }

  /** After a successful write of k, searching for the bytes k now holds finds k. */
  lemma ValueSearchFindsWritten(s: State, name: Bytes, args: seq<Bytes>)
    requires name == InsertName || name == UpdateName
    requires Step(s, name, args).reply == Done
    ensures var t := Step(s, name, args).state;
      args[0] in Step(t, ValueSearchName, [t.entries[args[0]]]).reply.keys
  {
  }

  const Alice: Bytes := [97, 108, 105, 99, 101]  // "alice"
  const Ten: Bytes := [49, 48]                   // "10"
  const Twenty: Bytes := [50, 48]                // "20"
  const NinetyNine: Bytes := [57, 57]            // "99"

  /** The worked example: from an empty ledger, insert alice 10, insert alice
      20, update alice 99, with key_search and value_search in between. */
  lemma AliceScenario(s1: State, s2: State, s3: State)
    requires s1 == Step(State(map[], Absent), InsertName, [Alice, Ten]).state
    requires s2 == Step(s1, InsertName, [Alice, Twenty]).state
    requires s3 == Step(s2, UpdateName, [Alice, NinetyNine]).state
    ensures Step(s1, KeySearchName, [Alice]).reply == Value(Some(Ten))
    ensures Step(s2, KeySearchName, [Alice]).reply == Value(Some([49, 48, 59, 50, 48]))  // "10;20"
    ensures Step(s3, KeySearchName, [Alice]).reply == Value(Some(NinetyNine))
    ensures Step(s3, ValueSearchName, [NinetyNine]).reply == KeySet({Alice})
  {
    var s0 := State(map[], Absent);
    assert UserKey(Alice);
    assert Lookup(s0, Alice) == None;
    assert History(None, Ten) == Ten;
    assert Step(s0, InsertName, [Alice, Ten]) == InsertSpec(s0, [Alice, Ten]) == SetSpec(s0, Alice, Ten);
    assert {} + {Alice} == {Alice};
    assert s1 == State(map[Alice := Ten], Stored({Alice}));
    assert Ten + [Semicolon] + Twenty == [49, 48, 59, 50, 48];
    assert s2 == State(map[Alice := [49, 48, 59, 50, 48]], Stored({Alice}));
    assert s3 == State(map[Alice := NinetyNine], Stored({Alice}));
    assert Matches(s3, {Alice}, NinetyNine) == {Alice};
  }
}

/** Keyed requests: the first success of a key is the only one that touches the ledger. */
module Idempotency {
  import opened Wrappers
  import opened Ledger
  import opened ApprovalRisk
  import opened LedgerOperations

  datatype Key = Key(owner: string, endpoint: string, text: string)

  datatype KeyRecord = KeyRecord(requestHash: nat, response: Option<Response>)

  datatype Store = Store(db: Db, keys: map<Key, KeyRecord>)

  datatype Keyed = Keyed(request: Request, key: Option<string>, requestHash: nat)

  /** Placing and settling keep a record of their key; approving relies on the recommendation's own status. */
  function KeyOf(k: Keyed): Option<Key> {
    if k.key.None? then None
    else match k.request
      case Place(owner, _, _, _, _, _) => Some(Key(owner, "/bets", k.key.value))
      case Settle(owner, _, _, _, _, _) => Some(Key(owner, "/bet-result", k.key.value))
      case _ => None
  }

  function Replay(record: KeyRecord, requestHash: nat): Answer {
    if record.requestHash != requestHash then Err(IdempotencyConflict)
    else if record.response.None? then Err(UnfinishedRecord)
    else Ok(record.response.value)
  }

  /** One keyed transaction: the key and the change are written together or not at all. */
  function ExecuteKeyed(store: Store, k: Keyed, p: Policies): (Store, Answer) {
    var key := KeyOf(k);
    if key.Some? && key.value in store.keys then (store, Replay(store.keys[key.value], k.requestHash))
    else
      var (after, answer) := Execute(store.db, k.request, p);
      if answer.Err? then (store, answer)
      else if key.None? then (store.(db := after), answer)
      else (Store(after, store.keys[key.value := KeyRecord(k.requestHash, Some(answer.value))]), answer)
  }

  function ExecuteAllKeyed(store: Store, ks: seq<Keyed>, p: Policies): (r: (Store, seq<Answer>))
    ensures |r.1| == |ks|
  {
    if ks == [] then (store, [])
    else
      var (before, answers) := ExecuteAllKeyed(store, ks[..|ks| - 1], p);
      var (after, answer) := ExecuteKeyed(before, ks[|ks| - 1], p);
      (after, answers + [answer])
  }

  // ----- Which requests are repeats -----

  predicate SucceededBefore(ks: seq<Keyed>, answers: seq<Answer>, key: Key, n: nat)
    requires |ks| == |answers| && n <= |ks|
  {
    exists j :: 0 <= j < n && KeyOf(ks[j]) == Some(key) && answers[j].Ok?
  }

  /** The key had succeeded when request i came. */
  predicate IsRepeat(store: Store, ks: seq<Keyed>, answers: seq<Answer>, i: nat)
    requires |ks| == |answers| && i < |ks|
  {
    KeyOf(ks[i]).Some? && (KeyOf(ks[i]).value in store.keys || SucceededBefore(ks, answers, KeyOf(ks[i]).value, i))
  }

  /** The requests left, and their answers, once every repeat is removed. */
  function WithoutRepeats(store: Store, ks: seq<Keyed>, answers: seq<Answer>): (seq<Request>, seq<Answer>)
    requires |ks| == |answers|
  {
    if ks == [] then ([], [])
    else
      var n := |ks| - 1;
      var (requests, kept) := WithoutRepeats(store, ks[..n], answers[..n]);
      if IsRepeat(store, ks, answers, n) then (requests, kept)
      else (requests + [ks[n].request], kept + [answers[n]])
  }

  // ----- Exactly once -----

  /** A refused request changes neither the ledger nor the keys. */
  lemma FailureLeavesNoTrace(store: Store, k: Keyed, p: Policies)
    requires ExecuteKeyed(store, k, p).1.Err?
    ensures ExecuteKeyed(store, k, p).0 == store
  {
    hide Execute;
  }

  /** A reused key with another request hash is refused. */
  lemma ReusedKeyConflicts(store: Store, k: Keyed, p: Policies)
    requires KeyOf(k).Some? && KeyOf(k).value in store.keys && store.keys[KeyOf(k).value].requestHash != k.requestHash
    ensures ExecuteKeyed(store, k, p) == (store, Err(IdempotencyConflict))
  {
  }

  lemma PrefixSuccess(ks: seq<Keyed>, answers: seq<Answer>, key: Key, n: nat, m: nat)
    requires |ks| == |answers| && n <= m <= |ks|
    ensures SucceededBefore(ks, answers, key, n) <==> SucceededBefore(ks[..m], answers[..m], key, n)
  {
    if SucceededBefore(ks, answers, key, n) {
      var j :| 0 <= j < n && KeyOf(ks[j]) == Some(key) && answers[j].Ok?;
      assert ks[..m][j] == ks[j] && answers[..m][j] == answers[j];
    }
    if SucceededBefore(ks[..m], answers[..m], key, n) {
      var j :| 0 <= j < n && KeyOf(ks[..m][j]) == Some(key) && answers[..m][j].Ok?;
      assert ks[..m][j] == ks[j] && answers[..m][j] == answers[j];
    }
  }

  /** After a run the keys are those held before and those that succeeded; each keeps its first success. */
  lemma {:induction false} KeysAreSuccesses(store: Store, ks: seq<Keyed>, p: Policies, key: Key)
    ensures var (after, answers) := ExecuteAllKeyed(store, ks, p);
            && (key in after.keys <==> key in store.keys || SucceededBefore(ks, answers, key, |ks|))
            && (key in store.keys ==> after.keys[key] == store.keys[key])
            && (forall j :: 0 <= j < |ks| && KeyOf(ks[j]) == Some(key) && answers[j].Ok? && !IsRepeat(store, ks, answers, j)
                            ==> key in after.keys && after.keys[key] == KeyRecord(ks[j].requestHash, Some(answers[j].value)))
  {
    hide Execute;
    if ks != [] {
      var n := |ks| - 1;
      KeysAreSuccesses(store, ks[..n], p, key);
      var (before, earlier) := ExecuteAllKeyed(store, ks[..n], p);
      var (after, answers) := ExecuteAllKeyed(store, ks, p);
      assert answers[..n] == earlier;
      PrefixSuccess(ks, answers, key, n, n);
      SuccessGrows(ks, answers, key, n);
      forall j | 0 <= j < |ks| && KeyOf(ks[j]) == Some(key) && answers[j].Ok? && !IsRepeat(store, ks, answers, j)
        ensures key in after.keys && after.keys[key] == KeyRecord(ks[j].requestHash, Some(answers[j].value))
      {
        if j < n {
          PrefixSuccess(ks, answers, key, j, n);
          assert !IsRepeat(store, ks[..n], earlier, j);
        } else {
          assert key !in before.keys;
        }
      }
    }
  }

  lemma SuccessGrows(ks: seq<Keyed>, answers: seq<Answer>, key: Key, n: nat)
    requires |ks| == |answers| && n < |ks|
    ensures SucceededBefore(ks, answers, key, n + 1)
            <==> SucceededBefore(ks, answers, key, n) || (KeyOf(ks[n]) == Some(key) && answers[n].Ok?)
  {
    if KeyOf(ks[n]) == Some(key) && answers[n].Ok? { assert SucceededBefore(ks, answers, key, n + 1); }
  }

  /** Exactly-once refinement: the ledger, and the answers to the requests that are not repeats, are those of the plain
      ledger run on these requests alone. */
  lemma {:induction false} ExactlyOnce(store: Store, ks: seq<Keyed>, p: Policies)
    ensures var (after, answers) := ExecuteAllKeyed(store, ks, p);
            var (requests, kept) := WithoutRepeats(store, ks, answers);
            ExecuteAll(store.db, requests, p) == (after.db, kept)
  {
    hide Execute;
    if ks != [] {
      var n := |ks| - 1;
      ExactlyOnce(store, ks[..n], p);
      var (before, earlier) := ExecuteAllKeyed(store, ks[..n], p);
      var (after, answers) := ExecuteAllKeyed(store, ks, p);
      assert answers[..n] == earlier;
      var (requests, kept) := WithoutRepeats(store, ks[..n], earlier);
      if KeyOf(ks[n]).Some? {
        KeysAreSuccesses(store, ks[..n], p, KeyOf(ks[n]).value);
        PrefixSuccess(ks, answers, KeyOf(ks[n]).value, n, n);
      }
      if !IsRepeat(store, ks, answers, n) {
        assert (requests + [ks[n].request])[..|requests|] == requests;
        RefusalKeepsDb(before.db, ks[n].request, p);
      }
    }
  }

  lemma RefusalKeepsDb(db: Db, req: Request, p: Policies)
    ensures Execute(db, req, p).1.Err? ==> Execute(db, req, p).0 == db
  {
  }

  /** A repeat of a key answers as its first success did, or conflicts when its hash differs. */
  lemma RepeatsAnswerAsFirst(store: Store, ks: seq<Keyed>, p: Policies, j: nat, i: nat)
    requires j < i < |ks| && KeyOf(ks[i]).Some? && KeyOf(ks[j]) == KeyOf(ks[i])
    requires var answers := ExecuteAllKeyed(store, ks, p).1;
             answers[j].Ok? && !IsRepeat(store, ks, answers, j)
    ensures var answers := ExecuteAllKeyed(store, ks, p).1;
            answers[i] == (if ks[i].requestHash == ks[j].requestHash then answers[j] else Err(IdempotencyConflict))
  {
    hide Execute, KeyOf, ExecuteKeyed, Replay;
    var answers := ExecuteAllKeyed(store, ks, p).1;
    PrefixAnswers(store, ks, p, i + 1);
    PrefixAnswers(store, ks, p, i);
    assert ks[..i + 1][..i] == ks[..i];
    var (before, earlier) := ExecuteAllKeyed(store, ks[..i], p);
    assert answers[i] == ExecuteKeyed(before, ks[i], p).1;
    hide ExecuteAllKeyed;
    PrefixSuccess(ks, answers, KeyOf(ks[j]).value, j, i);
    KeysAreSuccesses(store, ks[..i], p, KeyOf(ks[i]).value);
    assert ks[..i][j] == ks[j] && earlier[j] == answers[j];
    assert !IsRepeat(store, ks[..i], earlier, j);
    HeldKeyReplays(before, ks[i], KeyRecord(ks[j].requestHash, Some(answers[j].value)), p);
  }

  lemma HeldKeyReplays(store: Store, k: Keyed, record: KeyRecord, p: Policies)
    requires KeyOf(k).Some? && KeyOf(k).value in store.keys && store.keys[KeyOf(k).value] == record && record.response.Some?
    ensures ExecuteKeyed(store, k, p).1
            == if record.requestHash == k.requestHash then Ok(record.response.value) else Err(IdempotencyConflict)
  {
  }

  lemma {:induction false} PrefixAnswers(store: Store, ks: seq<Keyed>, p: Policies, n: nat)
    requires n <= |ks|
    ensures ExecuteAllKeyed(store, ks[..n], p).1 == ExecuteAllKeyed(store, ks, p).1[..n]
  {
    hide ExecuteKeyed;
    if n < |ks| {
      var last := |ks| - 1;
      PrefixAnswers(store, ks[..last], p, n);
      assert ks[..last][..n] == ks[..n];
    } else {
      assert ks[..n] == ks;
    }
  }

  /** No committed record lacks its response, so a replay never meets one. */
  ghost predicate Finished(store: Store) {
    forall key <- store.keys :: store.keys[key].response.Some?
  }

  lemma {:induction false} RecordsStayFinished(store: Store, ks: seq<Keyed>, p: Policies)
    requires Finished(store)
    ensures var (after, answers) := ExecuteAllKeyed(store, ks, p);
            Finished(after) && forall a <- answers :: a != Err(UnfinishedRecord)
  {
    hide Execute;
    if ks != [] {
      RecordsStayFinished(store, ks[..|ks| - 1], p);
      NeverUnfinished(ExecuteAllKeyed(store, ks[..|ks| - 1], p).0.db, ks[|ks| - 1].request, p);
    }
  }

  lemma NeverUnfinished(db: Db, req: Request, p: Policies)
    ensures Execute(db, req, p).1 != Err(UnfinishedRecord)
  {
    hide Cash, ExposuresIn, BetsOf, ValidateRisk, Targets, Cents;
  }
}

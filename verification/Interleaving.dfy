/** Transactions of one owner run step by step against each other under row locks and read-committed reads. */
module Interleaving {
  import opened Wrappers
  import opened Lists
  import opened Ledger
  import opened ApprovalRisk
  import opened LedgerOperations
  import opened LedgerInvariants
  import opened ApprovalInvariants
  import opened Idempotency

  // ----- The machine -----

  /** What a transaction reads, each by its own query. */
  datatype Item = PortfolioRow | CashSum | BetRows | ExposureRows | IdConstraint | ApprovalRows

  datatype Phase =
    | Waiting
    | KeyHeld
    | OwnerHeld
    | Reading
    | Decided(verdict: Verdict)
    | Recovering
    | Finished(answer: Answer)
    | Gone

  datatype Txn = Txn(k: Keyed, phase: Phase, known: set<Item>, view: View)

  /** The committed tables, the transactions under way, the locks they hold, and the order in which they ended. */
  datatype World = World(
    store: Store,
    txns: seq<Txn>,
    ownerLock: Option<nat>,
    rowLocks: map<string, nat>,
    keyLocks: map<Key, nat>,
    log: seq<(Keyed, Answer)>)

  datatype Action =
    | Arrive(k: Keyed)
    | InsertKey(i: nat)
    | LockOwner(i: nat)
    | LockRow(i: nat)
    | Read(i: nat, item: Item)
    | Judge(i: nat)
    | Finish(i: nat)
    | Persist(i: nat)
    | Recover(i: nat)
    | Abort(i: nat)

  predicate Active(t: Txn) {
    t.phase == KeyHeld || t.phase == OwnerHeld || t.phase == Reading || t.phase.Decided?
  }

  predicate Judging(t: Txn) {
    t.phase == Reading || t.phase.Decided?
  }

  const UNREAD := View(None, 0, [], [], false, None, None, false, map[])

  function Needs(req: Request): set<Item> {
    match req
    case Place(_, _, _, _, _, _) => {PortfolioRow, CashSum, IdConstraint}
    case Settle(_, _, _, _, _, _) => {PortfolioRow, BetRows, CashSum}
    case Approve(_, _, _, _) => {PortfolioRow, ApprovalRows, CashSum, BetRows, ExposureRows, IdConstraint}
    case Reject(_, _) => {PortfolioRow}
    case Propose(_, _, _) => {PortfolioRow, IdConstraint}
  }

  /** The view with one more query answered from the committed tables. */
  function Seen(view: View, item: Item, now: View): View {
    match item
    case PortfolioRow => view.(portfolio := now.portfolio)
    case CashSum => view.(cash := now.cash)
    case BetRows => view.(bets := now.bets)
    case ExposureRows => view.(exposures := now.exposures)
    case IdConstraint => view.(taken := now.taken)
    case ApprovalRows => view.(approvedBet := now.approvedBet, approvedBetExists := now.approvedBetExists)
  }

  predicate Agrees(item: Item, a: View, b: View) {
    match item
    case PortfolioRow => a.portfolio == b.portfolio
    case CashSum => a.cash == b.cash
    case BetRows => a.bets == b.bets
    case ExposureRows => a.exposures == b.exposures
    case IdConstraint => a.taken == b.taken
    case ApprovalRows => a.approvedBet == b.approvedBet && a.approvedBetExists == b.approvedBetExists
  }

  function With(w: World, i: nat, t: Txn): World
    requires i < |w.txns|
  {
    w.(txns := w.txns[i := t])
  }

  /** Ending a transaction gives back its locks. */
  function Release(w: World, i: nat): World {
    w.(ownerLock := if w.ownerLock == Some(i) then None else w.ownerLock,
       rowLocks := map id | id in w.rowLocks && w.rowLocks[id] != i :: w.rowLocks[id],
       keyLocks := map key | key in w.keyLocks && w.keyLocks[key] != i :: w.keyLocks[key])
  }

  function DoInsertKey(w: World, i: nat): World
    requires i < |w.txns|
  {
    var t := w.txns[i];
    var key := KeyOf(t.k);
    if t.phase != Waiting then w
    else if key.None? then With(w, i, t.(phase := KeyHeld))
    else if key.value in w.store.keys then With(w, i, t.(phase := Recovering))
    else if key.value in w.keyLocks then w
    else With(w, i, t.(phase := KeyHeld)).(keyLocks := w.keyLocks[key.value := i])
  }

  function DoLockOwner(w: World, i: nat): World
    requires i < |w.txns|
  {
    var t := w.txns[i];
    if t.phase != KeyHeld || t.k.request.Reject? || t.k.request.Propose? || w.ownerLock.Some? then w
    else With(w, i, t.(phase := if t.k.request.Approve? then OwnerHeld else Reading, view := UNREAD.(events := w.store.db.events)))
             .(ownerLock := Some(i))
  }

  /** locking a recommendation reads its latest committed row; a missing row leaves nothing to lock. */
  function DoLockRow(w: World, i: nat): World
    requires i < |w.txns|
  {
    var t := w.txns[i];
    var id := NamedRow(t.k.request);
    var ready := (t.phase == OwnerHeld && t.k.request.Approve?) || (t.phase == KeyHeld && t.k.request.Reject?);
    if !ready || (id in w.store.db.recommendations && id in w.rowLocks) then w
    else
      var seen := UNREAD.(recommendation := RecommendationOf(w.store.db, t.k.request), events := w.store.db.events);
      var next := With(w, i, t.(phase := Reading, view := seen));
      if id in w.store.db.recommendations then next.(rowLocks := w.rowLocks[id := i]) else next
  }

  function DoRead(w: World, i: nat, item: Item): World
    requires i < |w.txns|
  {
    var t := w.txns[i];
    if t.phase != Reading || item !in Needs(t.k.request) || item in t.known then w
    else With(w, i, t.(known := t.known + {item}, view := Seen(t.view, item, ViewOf(w.store.db, t.k.request))))
  }

  function DoJudge(w: World, i: nat, p: Policies): World
    requires i < |w.txns|
  {
    var t := w.txns[i];
    if t.phase != Reading || t.known != Needs(t.k.request) then w
    else With(w, i, t.(phase := Decided(DecideRequest(t.view, t.k.request, p))))
  }

  function Commit(store: Store, k: Keyed, change: Change, response: Response): Store {
    Store(Apply(store.db, change),
          if KeyOf(k).None? then store.keys else store.keys[KeyOf(k).value := KeyRecord(k.requestHash, Some(response))])
  }

  /** Commit when the decision was Ok; otherwise roll back, and look for the key's record after an integrity error. */
  function DoFinish(w: World, i: nat): World
    requires i < |w.txns|
  {
    var t := w.txns[i];
    if !t.phase.Decided? then w
    else
      match t.phase.verdict
      case Ok((change, response)) =>
        var done := With(w, i, t.(phase := Finished(Ok(response))));
        Release(done, i).(store := Commit(w.store, t.k, change, response), log := w.log + [(t.k, Ok(response))])
      case Err(e) =>
        if e == IntegrityViolation && KeyOf(t.k).Some? then Release(With(w, i, t.(phase := Recovering)), i)
        else Release(With(w, i, t.(phase := Finished(Err(e)))), i).(log := w.log + [(t.k, Err(e))])
  }

  /** Nobody is using the owner's row to open a portfolio, and nobody is looking for the rows about to be stored. */
  predicate Undisturbed(w: World, req: Request)
    requires req.Propose?
  {
    && (req.portfolioId in w.store.db.portfolios || w.ownerLock == None)
    && (forall t <- w.txns :: Judging(t) && (t.k.request.Approve? || t.k.request.Reject?) ==> NamedRow(t.k.request) !in req.proposals)
  }

  /** A decision takes no lock: it is stored in one step. */
  function DoPersist(w: World, i: nat, p: Policies): World
    requires i < |w.txns|
  {
    var t := w.txns[i];
    if t.phase != KeyHeld || !t.k.request.Propose? || !Undisturbed(w, t.k.request) then w
    else
      var (store, answer) := ExecuteKeyed(w.store, t.k, p);
      Release(With(w, i, t.(phase := Finished(answer))), i).(store := store, log := w.log + [(t.k, answer)])
  }

  /** In a new session: the record of the key if there is one, else the integrity error is raised again. */
  function DoRecover(w: World, i: nat): World
    requires i < |w.txns|
  {
    var t := w.txns[i];
    if t.phase != Recovering || KeyOf(t.k).None? then w
    else if KeyOf(t.k).value in w.store.keys then
      var answer := Replay(w.store.keys[KeyOf(t.k).value], t.k.requestHash);
      With(w, i, t.(phase := Finished(answer))).(log := w.log + [(t.k, answer)])
    else With(w, i, t.(phase := Finished(Err(IntegrityViolation))))
  }

  /** A lost connection: whatever was under way is rolled back. */
  function DoAbort(w: World, i: nat): World
    requires i < |w.txns|
  {
    var t := w.txns[i];
    if t.phase.Finished? then w else Release(With(w, i, t.(phase := Gone)), i)
  }

  /** One step of the machine; a step that is blocked or out of turn does nothing. */
  function Perform(w: World, a: Action, p: Policies): World {
    match a
    case Arrive(k) => w.(txns := w.txns + [Txn(k, Waiting, {}, UNREAD)])
    case InsertKey(i) => if i < |w.txns| then DoInsertKey(w, i) else w
    case LockOwner(i) => if i < |w.txns| then DoLockOwner(w, i) else w
    case LockRow(i) => if i < |w.txns| then DoLockRow(w, i) else w
    case Read(i, item) => if i < |w.txns| then DoRead(w, i, item) else w
    case Judge(i) => if i < |w.txns| then DoJudge(w, i, p) else w
    case Finish(i) => if i < |w.txns| then DoFinish(w, i) else w
    case Persist(i) => if i < |w.txns| then DoPersist(w, i, p) else w
    case Recover(i) => if i < |w.txns| then DoRecover(w, i) else w
    case Abort(i) => if i < |w.txns| then DoAbort(w, i) else w
  }

  function PerformAll(w: World, actions: seq<Action>, p: Policies): World {
    if actions == [] then w
    else Perform(PerformAll(w, actions[..|actions| - 1], p), actions[|actions| - 1], p)
  }

  function Quiet(store: Store): World {
    World(store, [], None, map[], map[], [])
  }

  // ----- The invariant -----

  /** The locks that a transaction's phase says it holds. */
  ghost predicate HoldsItsLocks(w: World, i: nat)
    requires i < |w.txns|
  {
    var t := w.txns[i];
    && (Active(t) && KeyOf(t.k).Some? ==>
          KeyOf(t.k).value !in w.store.keys && KeyOf(t.k).value in w.keyLocks && w.keyLocks[KeyOf(t.k).value] == i)
    && ((t.phase == OwnerHeld || (Judging(t) && !t.k.request.Reject?)) ==> w.ownerLock == Some(i))
    && (t.phase == OwnerHeld ==> t.k.request.Approve?)
    && (Judging(t) ==> !t.k.request.Propose?)
    && (Judging(t) && NamedRow(t.k.request) in w.store.db.recommendations && (t.k.request.Approve? || t.k.request.Reject?) ==>
          NamedRow(t.k.request) in w.rowLocks && w.rowLocks[NamedRow(t.k.request)] == i)
    && (t.phase == Recovering ==> KeyOf(t.k).Some?)
  }

  /** What a transaction has read is still so in the committed tables. */
  ghost predicate ViewIsCurrent(db: Db, t: Txn, p: Policies) {
    var now := ViewOf(db, t.k.request);
    && t.known <= Needs(t.k.request)
    && (Judging(t) ==>
          && t.view.recommendation == now.recommendation && t.view.events == now.events
          && forall item :: item in t.known ==> Agrees(item, t.view, now))
    && (t.phase == Waiting || t.phase == KeyHeld || t.phase == OwnerHeld ==> t.known == {})
    && (t.phase.Decided? ==> t.phase.verdict == DecideRequest(now, t.k.request, p))
  }

  function Requests(log: seq<(Keyed, Answer)>): seq<Keyed> {
    seq(|log|, i requires 0 <= i < |log| => log[i].0)
  }

  function Answers(log: seq<(Keyed, Answer)>): seq<Answer> {
    seq(|log|, i requires 0 <= i < |log| => log[i].1)
  }

  /** The committed store, and every answer in the log, are those of a serial run in the order of the log. */
  ghost predicate IsSerial(start: Store, w: World, p: Policies) {
    ExecuteAllKeyed(start, Requests(w.log), p) == (w.store, Answers(w.log))
  }

  /** The log's successful approvals and rejections are what the recommendations say. */
  ghost predicate StatusesMatch(w: World) {
    forall e <- w.log :: e.1.Ok? ==> ShownBy(w.store.db, e.0.request)
  }

  ghost predicate SuccessesLogged(w: World) {
    forall t <- w.txns :: t.phase.Finished? && t.phase.answer.Ok? ==> (t.k, t.phase.answer) in w.log
  }

  ghost predicate WorldInv(start: Store, w: World, p: Policies) {
    && Inv(w.store.db)
    && (forall i :: 0 <= i < |w.txns| ==> HoldsItsLocks(w, i))
    && (forall i :: 0 <= i < |w.txns| ==> ViewIsCurrent(w.store.db, w.txns[i], p))
    && IsSerial(start, w, p) && StatusesMatch(w) && SuccessesLogged(w)
  }

  // ----- What one commit does to another transaction's view -----

  /** A decision looks at nothing but what its request needs to read. */
  lemma DecisionNeedsOnly(view: View, now: View, req: Request, p: Policies)
    requires view.recommendation == now.recommendation && view.events == now.events
    requires forall item :: item in Needs(req) ==> Agrees(item, view, now)
    ensures DecideRequest(view, req, p) == DecideRequest(now, req, p)
  {
    hide ValidateRisk, Targets, Cents, Where, FindBet;
    assert PortfolioRow in Needs(req) && Agrees(PortfolioRow, view, now);
    if !req.Reject? && !req.Propose? { assert CashSum in Needs(req) && Agrees(CashSum, view, now); }
    if req.Place? || req.Approve? || req.Propose? { assert IdConstraint in Needs(req) && Agrees(IdConstraint, view, now); }
    if req.Settle? || req.Approve? { assert BetRows in Needs(req) && Agrees(BetRows, view, now); }
    if req.Approve? {
      assert ExposureRows in Needs(req) && Agrees(ExposureRows, view, now);
      assert ApprovalRows in Needs(req) && Agrees(ApprovalRows, view, now);
    }
  }

  lemma SameApprovals(db: Db, after: Db, req: Request)
    requires after.approvals == db.approvals
    ensures ApprovedBetOf(after, req) == ApprovedBetOf(db, req)
  {
  }

  lemma RejectKeepsReads(db: Db, req: Request, other: Request, p: Policies)
    requires Inv(db) && req.Reject? && Execute(db, req, p).1.Ok?
    requires other.Approve? && other.recommendationId in db.recommendations ==> other.recommendationId != req.recommendationId
    requires !other.Reject? && !other.Propose?
    ensures ViewOf(Execute(db, req, p).0, other) == ViewOf(db, other)
  {
    hide Execute, Inv, Where, Total, HasBet;
    RejectIs(db, req, p);
    var after := Execute(db, req, p).0;
    var rec := RecommendationOf(db, other);
    assert RecommendationOf(after, other) == rec;
    SameExposuresOver(db, after, db.bets, PortfolioIdOf(rec, other));
    hide ExposuresOver, ApprovedBet;
    assert ApprovedBetOf(after, other) == ApprovedBetOf(db, other) by { SameApprovals(db, after, other); }
  }

  lemma OthersKeepRejectsReads(db: Db, after: Db, req: Request, other: Request)
    requires Linked(db) && Gentle(db, after, req) && other.Reject?
    requires req.Propose? ==> other.recommendationId !in req.proposals
    requires other.recommendationId in db.recommendations && (req.Approve? || req.Reject?) ==> NamedRow(req) != other.recommendationId
    ensures ViewOf(after, other).recommendation == ViewOf(db, other).recommendation
    ensures ViewOf(after, other).events == ViewOf(db, other).events
    ensures Agrees(PortfolioRow, ViewOf(after, other), ViewOf(db, other))
  {
    hide Where, Total, ExposuresOver, HasBet, ApprovedBet;
  }

  lemma CommitKeepsView(db: Db, req: Request, other: Txn, p: Policies)
    requires Inv(db) && Execute(db, req, p).1.Ok? && ViewIsCurrent(db, other, p)
    requires !req.Propose? && (Judging(other) ==> !other.k.request.Propose?)
    requires Judging(other) && !other.k.request.Reject? ==> req.Reject?
    requires Judging(other) && NamedRow(other.k.request) in db.recommendations
             && (other.k.request.Approve? || other.k.request.Reject?) && (req.Approve? || req.Reject?)
             ==> NamedRow(other.k.request) != NamedRow(req)
    ensures ViewIsCurrent(Execute(db, req, p).0, other, p)
  {
    var after := Execute(db, req, p).0;
    hide Execute, ViewOf, DecideRequest;
    TransactionsAreGentle(db, req, p);
    if Judging(other) {
      if other.k.request.Reject? {
        OthersKeepRejectsReads(db, after, req, other.k.request);
        assert Needs(other.k.request) == {PortfolioRow};
        DecisionNeedsOnly(ViewOf(after, other.k.request), ViewOf(db, other.k.request), other.k.request, p);
      } else {
        RejectKeepsReads(db, req, other.k.request, p);
      }
    }
  }

  // ----- Every step keeps the invariant -----

  lemma QuietIsSound(start: Store, p: Policies)
    requires Inv(start.db)
    ensures WorldInv(start, Quiet(start), p)
  {
    hide Inv;
    assert Requests([]) == [] && Answers([]) == [];
  }

  /** A step of transaction i that touches neither the tables nor the log, and only adds locks of its own. */
  ghost predicate OwnStep(w: World, next: World, i: nat) {
    && i < |w.txns| && |next.txns| == |w.txns| && next.store == w.store && next.log == w.log
    && next.txns[i].k == w.txns[i].k
    && (next.txns[i].phase.Finished? && next.txns[i].phase.answer.Ok? ==> next.txns[i] == w.txns[i])
    && (forall j :: 0 <= j < |w.txns| && j != i ==> next.txns[j] == w.txns[j])
    && (w.ownerLock.Some? && w.ownerLock != Some(i) ==> next.ownerLock == w.ownerLock)
    && (forall id <- w.rowLocks :: w.rowLocks[id] != i ==> id in next.rowLocks && next.rowLocks[id] == w.rowLocks[id])
    && (forall key <- w.keyLocks :: w.keyLocks[key] != i ==> key in next.keyLocks && next.keyLocks[key] == w.keyLocks[key])
  }

  lemma OwnStepKeeps(start: Store, w: World, next: World, i: nat, p: Policies)
    requires WorldInv(start, w, p) && OwnStep(w, next, i)
    requires HoldsItsLocks(next, i) && ViewIsCurrent(next.store.db, next.txns[i], p)
    ensures WorldInv(start, next, p)
  {
    hide Inv, ViewIsCurrent, IsSerial, ShownBy;
    forall j | 0 <= j < |next.txns| ensures HoldsItsLocks(next, j) && ViewIsCurrent(next.store.db, next.txns[j], p) {
      if j != i { assert HoldsItsLocks(w, j) && ViewIsCurrent(w.store.db, w.txns[j], p); }
    }
    assert IsSerial(start, next, p) by { SerialIgnoresTxns(start, w, next, p); }
    forall t | t in next.txns && t.phase.Finished? && t.phase.answer.Ok? ensures (t.k, t.phase.answer) in next.log {
      var j :| 0 <= j < |next.txns| && next.txns[j] == t;
      assert w.txns[j] in w.txns && w.txns[j] == t;
    }
  }

  lemma SerialIgnoresTxns(start: Store, w: World, next: World, p: Policies)
    requires IsSerial(start, w, p) && next.store == w.store && next.log == w.log
    ensures IsSerial(start, next, p)
  {
  }

  lemma ArriveKeeps(start: Store, w: World, k: Keyed, p: Policies)
    requires WorldInv(start, w, p)
    ensures WorldInv(start, Perform(w, Arrive(k), p), p)
  {
    hide Inv, ViewIsCurrent, IsSerial, ShownBy, ViewOf;
    var next := Perform(w, Arrive(k), p);
    assert ViewIsCurrent(w.store.db, Txn(k, Waiting, {}, UNREAD), p) by { FreshViewIsCurrent(w.store.db, k, p); }
    forall j | 0 <= j < |next.txns| ensures HoldsItsLocks(next, j) && ViewIsCurrent(next.store.db, next.txns[j], p) {
      if j < |w.txns| { assert HoldsItsLocks(w, j) && ViewIsCurrent(w.store.db, w.txns[j], p); }
    }
    assert IsSerial(start, next, p) by { SerialIgnoresTxns(start, w, next, p); }
  }

  lemma FreshViewIsCurrent(db: Db, k: Keyed, p: Policies)
    ensures ViewIsCurrent(db, Txn(k, Waiting, {}, UNREAD), p)
  {
    hide ViewOf;
  }

  lemma LocksAndView(start: Store, w: World, i: nat, p: Policies)
    requires WorldInv(start, w, p) && i < |w.txns|
    ensures HoldsItsLocks(w, i) && ViewIsCurrent(w.store.db, w.txns[i], p)
  {
    hide Inv, HoldsItsLocks, ViewIsCurrent, IsSerial, StatusesMatch, SuccessesLogged;
  }

  lemma InsertKeyKeeps(start: Store, w: World, i: nat, p: Policies)
    requires WorldInv(start, w, p) && i < |w.txns|
    ensures WorldInv(start, DoInsertKey(w, i), p)
  {
    hide WorldInv, ViewOf, DecideRequest;
    var next := DoInsertKey(w, i);
    LocksAndView(start, w, i, p);
    if next != w { OwnStepKeeps(start, w, next, i, p); }
  }

  lemma LockOwnerKeeps(start: Store, w: World, i: nat, p: Policies)
    requires WorldInv(start, w, p) && i < |w.txns|
    ensures WorldInv(start, DoLockOwner(w, i), p)
  {
    hide WorldInv, DecideRequest, Cash, BetsOf, ExposuresIn, HasBet, ApprovedBet;
    var next := DoLockOwner(w, i);
    LocksAndView(start, w, i, p);
    if next != w { OwnStepKeeps(start, w, next, i, p); }
  }

  lemma LockRowKeeps(start: Store, w: World, i: nat, p: Policies)
    requires WorldInv(start, w, p) && i < |w.txns|
    ensures WorldInv(start, DoLockRow(w, i), p)
  {
    hide WorldInv, DecideRequest, Cash, BetsOf, ExposuresIn, HasBet, ApprovedBet;
    var next := DoLockRow(w, i);
    LocksAndView(start, w, i, p);
    if next != w { OwnStepKeeps(start, w, next, i, p); }
  }

  lemma ReadKeeps(start: Store, w: World, i: nat, item: Item, p: Policies)
    requires WorldInv(start, w, p) && i < |w.txns|
    ensures WorldInv(start, DoRead(w, i, item), p)
  {
    hide WorldInv, DecideRequest, ViewOf;
    var next := DoRead(w, i, item);
    LocksAndView(start, w, i, p);
    if next != w {
      var t, now := w.txns[i], ViewOf(w.store.db, w.txns[i].k.request);
      forall other | other in next.txns[i].known ensures Agrees(other, next.txns[i].view, now) {
        if other != item { assert Agrees(other, t.view, now); }
      }
      OwnStepKeeps(start, w, next, i, p);
    }
  }

  lemma JudgeKeeps(start: Store, w: World, i: nat, p: Policies)
    requires WorldInv(start, w, p) && i < |w.txns|
    ensures WorldInv(start, DoJudge(w, i, p), p)
  {
    hide WorldInv, DecideRequest, ViewOf;
    var next := DoJudge(w, i, p);
    LocksAndView(start, w, i, p);
    if next != w {
      DecisionNeedsOnly(w.txns[i].view, ViewOf(w.store.db, w.txns[i].k.request), w.txns[i].k.request, p);
      OwnStepKeeps(start, w, next, i, p);
    }
  }

  lemma AbortKeeps(start: Store, w: World, i: nat, p: Policies)
    requires WorldInv(start, w, p) && i < |w.txns|
    ensures WorldInv(start, DoAbort(w, i), p)
  {
    hide WorldInv, DecideRequest, ViewOf;
    var next := DoAbort(w, i);
    LocksAndView(start, w, i, p);
    if next != w { OwnStepKeeps(start, w, next, i, p); }
  }

  // ----- Steps that end a transaction -----

  lemma LogGrows(log: seq<(Keyed, Answer)>, e: (Keyed, Answer))
    ensures Requests(log + [e]) == Requests(log) + [e.0] && Answers(log + [e]) == Answers(log) + [e.1]
    ensures forall x :: x in log ==> x in log + [e]
  {
  }

  lemma SerialGrows(start: Store, w: World, k: Keyed, p: Policies, next: World)
    requires IsSerial(start, w, p)
    requires next.store == ExecuteKeyed(w.store, k, p).0 && next.log == w.log + [(k, ExecuteKeyed(w.store, k, p).1)]
    ensures IsSerial(start, next, p)
  {
    hide ExecuteKeyed;
    LogGrows(w.log, (k, ExecuteKeyed(w.store, k, p).1));
    assert Requests(next.log)[..|w.log|] == Requests(w.log);
  }

  /** A decision made on a current view is the serial step. */
  lemma VerdictIsSerial(w: World, i: nat, p: Policies)
    requires i < |w.txns| && w.txns[i].phase.Decided? && HoldsItsLocks(w, i) && ViewIsCurrent(w.store.db, w.txns[i], p)
    ensures var t := w.txns[i];
            match t.phase.verdict
            case Ok((change, response)) => ExecuteKeyed(w.store, t.k, p) == (Commit(w.store, t.k, change, response), Ok(response))
                                           && Execute(w.store.db, t.k.request, p) == (Apply(w.store.db, change), Ok(response))
            case Err(e) => ExecuteKeyed(w.store, t.k, p) == (w.store, Err(e))
  {
    hide DecideRequest, ViewOf, Apply;
  }

  lemma RollbackKeeps(start: Store, w: World, i: nat, p: Policies)
    requires WorldInv(start, w, p) && i < |w.txns| && w.txns[i].phase.Decided? && w.txns[i].phase.verdict.Err?
    ensures WorldInv(start, DoFinish(w, i), p)
  {
    hide WorldInv, DecideRequest, ViewOf;
    var t, next := w.txns[i], DoFinish(w, i);
    var e := t.phase.verdict.error;
    LocksAndView(start, w, i, p);
    var released := next.(log := w.log);
    OwnStepKeeps(start, w, released, i, p);
    if next != released {
      VerdictIsSerial(w, i, p);
      LogOnly(start, released, t.k, Err(e), next, p);
    }
  }

  /** Ending with an answer that leaves the tables alone only adds to the log. */
  lemma LogOnly(start: Store, w: World, k: Keyed, answer: Answer, next: World, p: Policies)
    requires WorldInv(start, w, p) && next == w.(log := w.log + [(k, answer)])
    requires ExecuteKeyed(w.store, k, p) == (w.store, answer)
    requires answer.Ok? ==> k.request.Place? || k.request.Settle?
    ensures WorldInv(start, next, p)
  {
    hide Inv, HasStatus, ViewIsCurrent, ExecuteKeyed, IsSerial;
    LogGrows(w.log, (k, answer));
    SerialGrows(start, w, k, p, next);
    forall j | 0 <= j < |next.txns| ensures HoldsItsLocks(next, j) { assert HoldsItsLocks(w, j); }
  }

  lemma RecoverKeeps(start: Store, w: World, i: nat, p: Policies)
    requires WorldInv(start, w, p) && i < |w.txns|
    ensures WorldInv(start, DoRecover(w, i), p)
  {
    hide WorldInv, DecideRequest, ViewOf, Execute;
    var t, next := w.txns[i], DoRecover(w, i);
    LocksAndView(start, w, i, p);
    if next != w {
      if KeyOf(t.k).value in w.store.keys {
        var answer := Replay(w.store.keys[KeyOf(t.k).value], t.k.requestHash);
        var gone := With(w, i, t.(phase := Gone));
        OwnStepKeeps(start, w, gone, i, p);
        LogOnly(start, gone, t.k, answer, gone.(log := w.log + [(t.k, answer)]), p);
        NameAnswer(start, gone.(log := w.log + [(t.k, answer)]), next, i, answer, p);
      } else {
        OwnStepKeeps(start, w, next, i, p);
      }
    }
  }

  /** Once an answer is in the log, its transaction may show it. */
  lemma NameAnswer(start: Store, w: World, next: World, i: nat, answer: Answer, p: Policies)
    requires WorldInv(start, w, p) && i < |w.txns| && w.txns[i].phase == Gone
    requires next == With(w, i, w.txns[i].(phase := Finished(answer))) && (w.txns[i].k, answer) in w.log
    ensures WorldInv(start, next, p)
  {
    hide Inv, ShownBy, DecideRequest, ViewOf, IsSerial;
    forall j | 0 <= j < |next.txns| ensures HoldsItsLocks(next, j) && ViewIsCurrent(next.store.db, next.txns[j], p) {
      assert HoldsItsLocks(w, j) && ViewIsCurrent(w.store.db, w.txns[j], p);
    }
    assert IsSerial(start, next, p) by { SerialIgnoresTxns(start, w, next, p); }
    forall t | t in next.txns && t.phase.Finished? && t.phase.answer.Ok? ensures (t.k, t.phase.answer) in next.log {
      var j :| 0 <= j < |next.txns| && next.txns[j] == t;
      if j != i { assert w.txns[j] in w.txns; }
    }
  }

  /** Where a commit leaves the machine, seen from another transaction. */
  lemma CommitFrame(w: World, i: nat, j: nat, next: World)
    requires i < |w.txns| && j < |w.txns| && i != j && w.txns[i].phase.Decided? && w.txns[i].phase.verdict.Ok?
    requires next == DoFinish(w, i)
    ensures |next.txns| == |w.txns| && next.txns[j] == w.txns[j]
    ensures next.store == Commit(w.store, w.txns[i].k, w.txns[i].phase.verdict.value.0, w.txns[i].phase.verdict.value.1)
    ensures w.ownerLock == Some(j) ==> next.ownerLock == Some(j)
    ensures forall id <- w.rowLocks :: w.rowLocks[id] == j ==> id in next.rowLocks && next.rowLocks[id] == j
    ensures forall key <- w.keyLocks :: w.keyLocks[key] == j ==> key in next.keyLocks && next.keyLocks[key] == j
  {
    hide Commit;
  }

  lemma OthersAfterCommit(w: World, i: nat, j: nat, next: World, p: Policies)
    requires i < |w.txns| && j < |w.txns| && i != j && Inv(w.store.db)
    requires w.txns[i].phase.Decided? && w.txns[i].phase.verdict.Ok?
    requires HoldsItsLocks(w, i) && HoldsItsLocks(w, j)
    requires ViewIsCurrent(w.store.db, w.txns[i], p) && ViewIsCurrent(w.store.db, w.txns[j], p)
    requires next == DoFinish(w, i)
    ensures |next.txns| == |w.txns| && HoldsItsLocks(next, j) && ViewIsCurrent(next.store.db, next.txns[j], p)
  {
    VerdictIsSerial(w, i, p);
    CommitFrame(w, i, j, next);
    hide Inv, Apply, Execute, ViewIsCurrent, ExecuteKeyed, DoFinish;
    var db, req := w.store.db, w.txns[i].k.request;
    assert next.store.db == Execute(db, req, p).0;
    TransactionsAreGentle(db, req, p);
    CommitKeepsView(db, req, w.txns[j], p);
  }

  lemma CommitKeeps(start: Store, w: World, i: nat, p: Policies)
    requires WorldInv(start, w, p) && i < |w.txns| && w.txns[i].phase.Decided? && w.txns[i].phase.verdict.Ok?
    ensures WorldInv(start, DoFinish(w, i), p)
  {
    hide Inv, ShownBy, DecideRequest, ViewOf, IsSerial, Execute, Apply, ExecuteKeyed;
    var t, next := w.txns[i], DoFinish(w, i);
    var (change, response) := t.phase.verdict.value;
    assert HoldsItsLocks(w, i) && ViewIsCurrent(w.store.db, t, p);
    VerdictIsSerial(w, i, p);
    ExecuteKeeps(w.store.db, t.k.request, p);
    SerialGrows(start, w, t.k, p, next);
    LogGrows(w.log, (t.k, Ok(response)));
    forall j | 0 <= j < |next.txns| ensures HoldsItsLocks(next, j) && ViewIsCurrent(next.store.db, next.txns[j], p) {
      if j != i {
        assert HoldsItsLocks(w, j) && ViewIsCurrent(w.store.db, w.txns[j], p);
        OthersAfterCommit(w, i, j, next, p);
      }
    }
    LogStaysShown(w, t.k.request, next, (t.k, Ok(response)), p);
    forall s | s in next.txns && s.phase.Finished? && s.phase.answer.Ok? ensures (s.k, s.phase.answer) in next.log {
      var j :| 0 <= j < |next.txns| && next.txns[j] == s;
      if j != i { assert w.txns[j] in w.txns; }
    }
  }

  // ----- Storing a decision -----

  /** New rows that nobody asked for leave every view of a known portfolio as it is. */
  lemma StoringKeepsReads(db: Db, rows: map<string, RecommendationRow>, other: Request)
    requires Linked(db) && rows.Keys !! db.recommendations.Keys && !other.Propose?
    requires other.Approve? || other.Reject? ==> other.recommendationId !in rows
    ensures ViewOf(StoreProposals(db, rows), other) == ViewOf(db, other)
  {
    hide Where, Total, HasBet, ApprovedBet;
    var after := StoreProposals(db, rows);
    assert SameLegs(db, after);
    SameExposuresOver(db, after, db.bets, PortfolioIdOf(RecommendationOf(db, other), other));
    hide ExposuresOver;
    assert ApprovedBetOf(after, other) == ApprovedBetOf(db, other) by { SameApprovals(db, after, other); }
  }

  lemma PersistKeepsView(db: Db, req: Request, other: Txn, p: Policies)
    requires Inv(db) && req.Propose? && ViewIsCurrent(db, other, p)
    requires Judging(other) ==> !other.k.request.Propose?
    requires Judging(other) && (other.k.request.Approve? || other.k.request.Reject?) ==> NamedRow(other.k.request) !in req.proposals
    requires Judging(other) && !other.k.request.Reject? ==> req.portfolioId in db.portfolios
    ensures ViewIsCurrent(Execute(db, req, p).0, other, p)
  {
    var after := Execute(db, req, p).0;
    hide Execute, ViewOf, DecideRequest;
    if Execute(db, req, p).1.Err? {
      RefusedOrRepeated(db, req, p);
    } else if Judging(other) {
      AnswerMatches(db, req, p);
      TransactionsAreGentle(db, req, p);
      if other.k.request.Reject? {
        OthersKeepRejectsReads(db, after, req, other.k.request);
        assert Needs(other.k.request) == {PortfolioRow};
        DecisionNeedsOnly(ViewOf(after, other.k.request), ViewOf(db, other.k.request), other.k.request, p);
      } else {
        ProposeIs(db, req, p);
        StoringKeepsReads(db, ProposalRows(req.portfolioId, req.proposals), other.k.request);
      }
    }
  }

  /** A decision has no key: its serial step is the plain one. */
  lemma UnkeyedStep(store: Store, k: Keyed, p: Policies)
    requires k.request.Propose?
    ensures ExecuteKeyed(store, k, p) == (store.(db := Execute(store.db, k.request, p).0), Execute(store.db, k.request, p).1)
  {
    RefusalKeepsDb(store.db, k.request, p);
    hide Execute;
  }

  lemma PersistFrame(w: World, i: nat, j: nat, next: World, p: Policies)
    requires i < |w.txns| && j < |w.txns| && i != j && next == DoPersist(w, i, p) && next != w
    ensures |next.txns| == |w.txns| && next.txns[j] == w.txns[j] && next.store == ExecuteKeyed(w.store, w.txns[i].k, p).0
    ensures w.ownerLock == Some(j) ==> next.ownerLock == Some(j)
    ensures forall id <- w.rowLocks :: w.rowLocks[id] == j ==> id in next.rowLocks && next.rowLocks[id] == j
    ensures forall key <- w.keyLocks :: w.keyLocks[key] == j ==> key in next.keyLocks && next.keyLocks[key] == j
  {
    hide ExecuteKeyed;
  }

  lemma OthersAfterPersist(w: World, i: nat, j: nat, next: World, p: Policies)
    requires i < |w.txns| && j < |w.txns| && i != j && Inv(w.store.db) && next == DoPersist(w, i, p) && next != w
    requires HoldsItsLocks(w, j) && ViewIsCurrent(w.store.db, w.txns[j], p)
    ensures |next.txns| == |w.txns| && HoldsItsLocks(next, j) && ViewIsCurrent(next.store.db, next.txns[j], p)
  {
    PersistFrame(w, i, j, next, p);
    var db, req := w.store.db, w.txns[i].k.request;
    assert w.txns[j] in w.txns && Undisturbed(w, req);
    UnkeyedStep(w.store, w.txns[i].k, p);
    hide Inv, Execute, ViewIsCurrent, ExecuteKeyed, DoPersist, Undisturbed;
    TransactionsAreGentle(db, req, p);
    PersistKeepsView(db, req, w.txns[j], p);
  }

  lemma PersistKeeps(start: Store, w: World, i: nat, p: Policies)
    requires WorldInv(start, w, p) && i < |w.txns|
    ensures WorldInv(start, DoPersist(w, i, p), p)
  {
    hide Inv, ShownBy, DecideRequest, ViewOf, IsSerial, Execute, ExecuteKeyed, Undisturbed;
    var t, next := w.txns[i], DoPersist(w, i, p);
    if next != w {
      var answer := ExecuteKeyed(w.store, t.k, p).1;
      assert HoldsItsLocks(w, i) && ViewIsCurrent(w.store.db, t, p);
      UnkeyedStep(w.store, t.k, p);
      ExecuteKeeps(w.store.db, t.k.request, p);
      SerialGrows(start, w, t.k, p, next);
      LogGrows(w.log, (t.k, answer));
      forall j | 0 <= j < |next.txns| ensures HoldsItsLocks(next, j) && ViewIsCurrent(next.store.db, next.txns[j], p) {
        if j != i {
          assert HoldsItsLocks(w, j) && ViewIsCurrent(w.store.db, w.txns[j], p);
          OthersAfterPersist(w, i, j, next, p);
        }
      }
      LogStaysShown(w, t.k.request, next, (t.k, answer), p);
      forall s | s in next.txns && s.phase.Finished? && s.phase.answer.Ok? ensures (s.k, s.phase.answer) in next.log {
        var j :| 0 <= j < |next.txns| && next.txns[j] == s;
        if j != i { assert w.txns[j] in w.txns; }
      }
    }
  }

  /** What the log shows stays shown, and shows the new answer too. */
  lemma LogStaysShown(w: World, req: Request, next: World, e: (Keyed, Answer), p: Policies)
    requires Inv(w.store.db) && StatusesMatch(w) && next.log == w.log + [e] && e.0.request == req
    requires next.store.db == Execute(w.store.db, req, p).0 && e.1 == Execute(w.store.db, req, p).1
    ensures StatusesMatch(next)
  {
    hide Execute, Inv;
    StatusesAfter(w.store.db, req, p);
  }

  lemma StepKeeps(start: Store, w: World, a: Action, p: Policies)
    requires WorldInv(start, w, p)
    ensures WorldInv(start, Perform(w, a, p), p)
  {
    hide WorldInv, DoInsertKey, DoLockOwner, DoLockRow, DoRead, DoJudge, DoPersist, DoRecover, DoAbort;
    match a {
      case Arrive(k) => ArriveKeeps(start, w, k, p);
      case InsertKey(i) => if i < |w.txns| { InsertKeyKeeps(start, w, i, p); }
      case LockOwner(i) => if i < |w.txns| { LockOwnerKeeps(start, w, i, p); }
      case LockRow(i) => if i < |w.txns| { LockRowKeeps(start, w, i, p); }
      case Read(i, item) => if i < |w.txns| { ReadKeeps(start, w, i, item, p); }
      case Judge(i) => if i < |w.txns| { JudgeKeeps(start, w, i, p); }
      case Finish(i) =>
        if i < |w.txns| && w.txns[i].phase.Decided? {
          if w.txns[i].phase.verdict.Ok? { CommitKeeps(start, w, i, p); } else { RollbackKeeps(start, w, i, p); }
        }
      case Persist(i) => if i < |w.txns| { PersistKeeps(start, w, i, p); }
      case Recover(i) => if i < |w.txns| { RecoverKeeps(start, w, i, p); }
      case Abort(i) => if i < |w.txns| { AbortKeeps(start, w, i, p); }
    }
  }

  // ----- Main results over every interleaving -----

  lemma {:induction false} RunsKeep(start: Store, actions: seq<Action>, p: Policies)
    requires Inv(start.db)
    ensures WorldInv(start, PerformAll(Quiet(start), actions, p), p)
  {
    hide WorldInv, Perform;
    if actions == [] {
      QuietIsSound(start, p);
    } else {
      RunsKeep(start, actions[..|actions| - 1], p);
      StepKeeps(start, PerformAll(Quiet(start), actions[..|actions| - 1], p), actions[|actions| - 1], p);
    }
  }

  /** Under every interleaving the committed tables, keys and answers are those of a serial run in the order of the log. */
  lemma EveryInterleavingIsSerial(start: Store, actions: seq<Action>, p: Policies)
    requires Inv(start.db)
    ensures var w := PerformAll(Quiet(start), actions, p);
            && ExecuteAllKeyed(start, Requests(w.log), p) == (w.store, Answers(w.log))
            && Inv(w.store.db)
            && (forall t <- w.txns :: t.phase.Finished? && t.phase.answer.Ok? ==> (t.k, t.phase.answer) in w.log)
  {
    hide PerformAll, ExecuteAllKeyed, Inv;
    RunsKeep(start, actions, p);
  }

  ghost predicate OnlyArrivals(w: World, actions: seq<Action>) {
    && (forall t <- w.txns :: Arrive(t.k) in actions)
    && (forall e <- w.log :: Arrive(e.0) in actions)
  }

  /** No step but an arrival changes who is asking; what ends up in the log was asked. */
  ghost predicate SameRequests(w: World, next: World) {
    && |next.txns| == |w.txns|
    && (forall j :: 0 <= j < |w.txns| ==> next.txns[j].k == w.txns[j].k)
    && (next.log == w.log || (next.log != [] && next.log[..|next.log| - 1] == w.log
                              && exists t :: t in w.txns && t.k == next.log[|next.log| - 1].0))
  }

  lemma LockStepsSameRequests(w: World, i: nat)
    requires i < |w.txns|
    ensures SameRequests(w, DoInsertKey(w, i)) && SameRequests(w, DoLockOwner(w, i)) && SameRequests(w, DoLockRow(w, i))
  {
    hide RecommendationOf;
  }

  lemma ReadStepsSameRequests(w: World, i: nat, item: Item, p: Policies)
    requires i < |w.txns|
    ensures SameRequests(w, DoRead(w, i, item)) && SameRequests(w, DoJudge(w, i, p)) && SameRequests(w, DoAbort(w, i))
  {
    hide DecideRequest, ViewOf;
  }

  lemma LoggedSameRequests(w: World, next: World, i: nat, answer: Answer)
    requires i < |w.txns| && |next.txns| == |w.txns| && forall j :: 0 <= j < |w.txns| ==> next.txns[j].k == w.txns[j].k
    requires next.log == w.log || next.log == w.log + [(w.txns[i].k, answer)]
    ensures SameRequests(w, next)
  {
    assert w.txns[i] in w.txns;
    assert (w.log + [(w.txns[i].k, answer)])[..|w.log|] == w.log;
  }

  lemma LateStepsSameRequests(w: World, i: nat, p: Policies)
    requires i < |w.txns|
    ensures SameRequests(w, DoFinish(w, i)) && SameRequests(w, DoRecover(w, i)) && SameRequests(w, DoPersist(w, i, p))
  {
    hide Commit, SameRequests, Replay, ExecuteKeyed, Undisturbed;
    var finished, recovered, persisted := DoFinish(w, i), DoRecover(w, i), DoPersist(w, i, p);
    LoggedSameRequests(w, finished, i, if finished.log == w.log then Err(MissingRun) else finished.log[|w.log|].1);
    LoggedSameRequests(w, recovered, i, if recovered.log == w.log then Err(MissingRun) else recovered.log[|w.log|].1);
    LoggedSameRequests(w, persisted, i, if persisted.log == w.log then Err(MissingRun) else persisted.log[|w.log|].1);
  }

  lemma StepKeepsArrivals(w: World, a: Action, actions: seq<Action>, p: Policies)
    requires OnlyArrivals(w, actions)
    ensures OnlyArrivals(Perform(w, a, p), actions + [a])
  {
    hide DoInsertKey, DoLockOwner, DoLockRow, DoRead, DoJudge, DoFinish, DoPersist, DoRecover, DoAbort;
    var next := Perform(w, a, p);
    if !a.Arrive? {
      if a.i < |w.txns| {
        LockStepsSameRequests(w, a.i);
        ReadStepsSameRequests(w, a.i, if a.Read? then a.item else CashSum, p);
        LateStepsSameRequests(w, a.i, p);
      }
      assert SameRequests(w, next);
    }
    if !a.Arrive? { SameRequestsKeepArrivals(w, next, actions, a); }
  }

  lemma SameRequestsKeepArrivals(w: World, next: World, actions: seq<Action>, a: Action)
    requires OnlyArrivals(w, actions) && SameRequests(w, next)
    ensures OnlyArrivals(next, actions + [a])
  {
    forall t | t in next.txns ensures Arrive(t.k) in actions + [a] {
      var j :| 0 <= j < |next.txns| && next.txns[j] == t;
      assert w.txns[j].k == t.k && w.txns[j] in w.txns;
    }
    forall e | e in next.log ensures Arrive(e.0) in actions + [a] {
      var j :| 0 <= j < |next.log| && next.log[j] == e;
      if next.log != w.log && j < |next.log| - 1 {
        assert next.log[..|next.log| - 1][j] == e;
        assert e in w.log;
      }
    }
  }

  lemma {:induction false} LogComesFromArrivals(start: Store, actions: seq<Action>, p: Policies)
    ensures OnlyArrivals(PerformAll(Quiet(start), actions, p), actions)
  {
    hide Perform, OnlyArrivals;
    if actions == [] {
      assert OnlyArrivals(Quiet(start), []) by { NothingArrived(start); }
    } else {
      var front := actions[..|actions| - 1];
      LogComesFromArrivals(start, front, p);
      StepKeepsArrivals(PerformAll(Quiet(start), front, p), actions[|actions| - 1], front, p);
      assert front + [actions[|actions| - 1]] == actions;
    }
  }

  lemma NothingArrived(start: Store)
    ensures OnlyArrivals(Quiet(start), [])
  {
  }

  lemma {:induction false} SerialRunsStaySolvent(start: Store, ks: seq<Keyed>, p: Policies)
    requires Inv(start.db) && Solvent(start.db) && p.startingCapital >= 0 && forall k <- ks :: k.request.Accepted()
    ensures Inv(ExecuteAllKeyed(start, ks, p).0.db) && Solvent(ExecuteAllKeyed(start, ks, p).0.db)
  {
    hide Execute, Inv, Solvent;
    if ks != [] {
      var front := ks[..|ks| - 1];
      assert forall k <- front :: k in ks;
      SerialRunsStaySolvent(start, front, p);
      ExecuteKeeps(ExecuteAllKeyed(start, front, p).0.db, ks[|ks| - 1].request, p);
    }
  }

  /** Under every interleaving of requests that the schemas accept, no portfolio's cash goes negative. */
  lemma CashStaysNonnegative(start: Store, actions: seq<Action>, p: Policies, pid: string)
    requires Inv(start.db) && Solvent(start.db) && p.startingCapital >= 0
    requires forall a <- actions :: a.Arrive? ==> a.k.request.Accepted()
    ensures var db := PerformAll(Quiet(start), actions, p).store.db;
            pid in db.portfolios ==> Cash(db, pid) >= 0
  {
    hide PerformAll, ExecuteAllKeyed, Inv, Cash;
    var w := PerformAll(Quiet(start), actions, p);
    EveryInterleavingIsSerial(start, actions, p);
    LogComesFromArrivals(start, actions, p);
    forall k | k in Requests(w.log) ensures k.request.Accepted() {
      var i :| 0 <= i < |w.log| && Requests(w.log)[i] == k;
      assert w.log[i] in w.log;
      assert Arrive(k) in actions;
    }
    SerialRunsStaySolvent(start, Requests(w.log), p);
  }

  lemma {:induction false} SerialRunsStayCompliant(start: Store, ks: seq<Keyed>, p: Policies, pid: string)
    requires Inv(start.db) && (forall k <- ks :: CapSafe(k.request, pid)) && Compliant(start.db, pid, p)
    requires p.risk.Valid() && p.parlay.Valid() && p.startingCapital >= 0
    ensures Inv(ExecuteAllKeyed(start, ks, p).0.db) && Compliant(ExecuteAllKeyed(start, ks, p).0.db, pid, p)
  {
    hide Execute, Inv, Compliant, CapSafe;
    if ks != [] {
      var front := ks[..|ks| - 1];
      assert forall k <- front :: k in ks;
      SerialRunsStayCompliant(start, front, p, pid);
      ExecuteKeeps(ExecuteAllKeyed(start, front, p).0.db, ks[|ks| - 1].request, p);
      StepKeepsCompliant(ExecuteAllKeyed(start, front, p).0.db, ks[|ks| - 1].request, p, pid);
    }
  }

  /** However its approvals, rejections, settlements and decisions interleave, a portfolio within its caps stays so. */
  lemma CapsSurviveInterleaving(start: Store, actions: seq<Action>, p: Policies, pid: string)
    requires Inv(start.db) && Compliant(start.db, pid, p) && p.risk.Valid() && p.parlay.Valid() && p.startingCapital >= 0
    requires forall a <- actions :: a.Arrive? ==> CapSafe(a.k.request, pid)
    ensures Compliant(PerformAll(Quiet(start), actions, p).store.db, pid, p)
  {
    hide PerformAll, ExecuteAllKeyed, Inv, Compliant, CapSafe;
    var w := PerformAll(Quiet(start), actions, p);
    EveryInterleavingIsSerial(start, actions, p);
    LogComesFromArrivals(start, actions, p);
    forall k | k in Requests(w.log) ensures CapSafe(k.request, pid) {
      var i :| 0 <= i < |w.log| && Requests(w.log)[i] == k;
      assert w.log[i] in w.log;
      assert Arrive(k) in actions;
    }
    SerialRunsStayCompliant(start, Requests(w.log), p, pid);
  }

  /** However an approval and a rejection of one recommendation race, they never both succeed. */
  lemma NeverBothApprovedAndRejected(start: Store, actions: seq<Action>, p: Policies, i: nat, j: nat)
    requires Inv(start.db)
    requires var w := PerformAll(Quiet(start), actions, p);
             && i < |w.txns| && j < |w.txns|
             && w.txns[i].k.request.Approve? && w.txns[j].k.request.Reject?
             && w.txns[i].k.request.recommendationId == w.txns[j].k.request.recommendationId
    ensures var w := PerformAll(Quiet(start), actions, p);
            !(w.txns[i].phase.Finished? && w.txns[i].phase.answer.Ok? && w.txns[j].phase.Finished? && w.txns[j].phase.answer.Ok?)
  {
    hide PerformAll, ExecuteAllKeyed, Inv, IsSerial, ViewIsCurrent, HoldsItsLocks;
    var w := PerformAll(Quiet(start), actions, p);
    RunsKeep(start, actions, p);
    assert w.txns[i] in w.txns && w.txns[j] in w.txns;
  }

  /** Why the owner row is locked before cash is read: two places decided on one view can overdraw together. */
  lemma SharedViewOverdraws(db: Db, a: Request, b: Request, p: Policies)
    requires Inv(db) && a.Place? && b.Place? && a.portfolioId == b.portfolioId && a.portfolioId in db.portfolios && a.newId != b.newId
    requires DecideRequest(ViewOf(db, a), a, p).Ok? && DecideRequest(ViewOf(db, b), b, p).Ok?
    ensures var both := Apply(Apply(db, DecideRequest(ViewOf(db, a), a, p).value.0), DecideRequest(ViewOf(db, b), b, p).value.0);
            Cash(both, a.portfolioId) == Cash(db, a.portfolioId) - Cents(a.amount) - Cents(b.amount)
  {
    hide Inv, Cash, Cents, BetsOf, ExposuresIn;
    var pid := a.portfolioId;
    var first, second := DecideRequest(ViewOf(db, a), a, p).value.0, DecideRequest(ViewOf(db, b), b, p).value.0;
    assert first.entries == [Entry(pid, StakeOf(a.newId), -Cents(a.amount))];
    assert second.entries == [Entry(pid, StakeOf(b.newId), -Cents(b.amount))];
    CashGrows(db, first, pid);
    CashGrows(Apply(db, first), second, pid);
    assert Total(first.entries, AmountIn(pid)) == -Cents(a.amount);
    assert Total(second.entries, AmountIn(pid)) == -Cents(b.amount);
  }

  lemma CashGrows(db: Db, change: Change, pid: string)
    ensures Cash(Apply(db, change), pid) == Cash(db, pid) + Total(change.entries, AmountIn(pid))
  {
    TotalConcat(db.entries, change.entries, AmountIn(pid));
  }

  // ----- No deadlock -----

  /** Every lock belongs to a transaction that is still using it. */
  ghost predicate LocksInUse(w: World) {
    && (w.ownerLock.Some? ==>
          w.ownerLock.value < |w.txns| && (w.txns[w.ownerLock.value].phase == OwnerHeld || Judging(w.txns[w.ownerLock.value])))
    && (forall id <- w.rowLocks :: w.rowLocks[id] < |w.txns| && Judging(w.txns[w.rowLocks[id]]))
    && (forall key <- w.keyLocks :: w.keyLocks[key] < |w.txns| && Active(w.txns[w.keyLocks[key]]))
  }

  lemma EndingKeepsLocksInUse(w: World, i: nat, t: Txn)
    requires LocksInUse(w) && i < |w.txns|
    ensures LocksInUse(Release(With(w, i, t), i))
  {
    var next := Release(With(w, i, t), i);
    forall id | id in next.rowLocks ensures next.rowLocks[id] < |next.txns| && Judging(next.txns[next.rowLocks[id]]) {
      assert id in w.rowLocks && w.rowLocks[id] != i;
    }
    forall key | key in next.keyLocks ensures next.keyLocks[key] < |next.txns| && Active(next.txns[next.keyLocks[key]]) {
      assert key in w.keyLocks && w.keyLocks[key] != i;
    }
  }

  lemma ArriveKeepsLocksInUse(w: World, k: Keyed, p: Policies)
    requires LocksInUse(w)
    ensures LocksInUse(Perform(w, Arrive(k), p))
  {
  }

  lemma StepKeepsLocksInUse(w: World, a: Action, p: Policies)
    requires LocksInUse(w)
    ensures LocksInUse(Perform(w, a, p))
  {
    hide LocksInUse, DoInsertKey, DoLockOwner, DoLockRow, DoRead, DoJudge, DoFinish, DoPersist, DoRecover;
    if a.Arrive? {
      ArriveKeepsLocksInUse(w, a.k, p);
    } else if a.i < |w.txns| {
      var t := w.txns[a.i];
      match a {
        case InsertKey(i) => InsertKeepsLocksInUse(w, i);
        case LockOwner(i) => LockOwnerKeepsLocksInUse(w, i);
        case LockRow(i) => LockRowKeepsLocksInUse(w, i);
        case Read(i, item) => ReadingKeepsLocksInUse(w, i, item, p);
        case Judge(i) => ReadingKeepsLocksInUse(w, i, CashSum, p);
        case Finish(i) => FinishKeepsLocksInUse(w, i);
        case Persist(i) => PersistKeepsLocksInUse(w, i, p);
        case Recover(i) => RecoverKeepsLocksInUse(w, i);
        case Abort(i) => EndingKeepsLocksInUse(w, i, t.(phase := Gone));
      }
    }
  }

  lemma InsertKeepsLocksInUse(w: World, i: nat)
    requires LocksInUse(w) && i < |w.txns|
    ensures LocksInUse(DoInsertKey(w, i))
  {
  }

  lemma LockOwnerKeepsLocksInUse(w: World, i: nat)
    requires LocksInUse(w) && i < |w.txns|
    ensures LocksInUse(DoLockOwner(w, i))
  {
  }

  lemma LockRowKeepsLocksInUse(w: World, i: nat)
    requires LocksInUse(w) && i < |w.txns|
    ensures LocksInUse(DoLockRow(w, i))
  {
    hide RecommendationOf;
  }

  lemma ReadingKeepsLocksInUse(w: World, i: nat, item: Item, p: Policies)
    requires LocksInUse(w) && i < |w.txns|
    ensures LocksInUse(DoRead(w, i, item)) && LocksInUse(DoJudge(w, i, p))
  {
    hide DecideRequest, ViewOf;
  }

  lemma RecoverKeepsLocksInUse(w: World, i: nat)
    requires LocksInUse(w) && i < |w.txns|
    ensures LocksInUse(DoRecover(w, i))
  {
    hide Replay;
  }

  lemma PersistKeepsLocksInUse(w: World, i: nat, p: Policies)
    requires LocksInUse(w) && i < |w.txns|
    ensures LocksInUse(DoPersist(w, i, p))
  {
    hide ExecuteKeyed, Release, LocksInUse, Undisturbed;
    var t := w.txns[i];
    if DoPersist(w, i, p) != w {
      var ended := With(w, i, t.(phase := Finished(ExecuteKeyed(w.store, t.k, p).1)));
      EndingKeepsLocksInUse(w, i, ended.txns[i]);
      TablesAside(Release(ended, i), DoPersist(w, i, p));
    }
  }

  lemma FinishKeepsLocksInUse(w: World, i: nat)
    requires LocksInUse(w) && i < |w.txns|
    ensures LocksInUse(DoFinish(w, i))
  {
    hide Commit, Release, LocksInUse;
    var t := w.txns[i];
    if t.phase.Decided? {
      match t.phase.verdict {
        case Ok((change, response)) =>
          EndingKeepsLocksInUse(w, i, t.(phase := Finished(Ok(response))));
          TablesAside(Release(With(w, i, t.(phase := Finished(Ok(response)))), i), DoFinish(w, i));
        case Err(e) =>
          EndingKeepsLocksInUse(w, i, t.(phase := Recovering));
          EndingKeepsLocksInUse(w, i, t.(phase := Finished(Err(e))));
          TablesAside(Release(With(w, i, t.(phase := Finished(Err(e)))), i),
                      Release(With(w, i, t.(phase := Finished(Err(e)))), i).(log := w.log + [(t.k, Err(e))]));
      }
    }
  }

  lemma TablesAside(w: World, next: World)
    requires LocksInUse(w)
    requires next.txns == w.txns && next.ownerLock == w.ownerLock && next.rowLocks == w.rowLocks && next.keyLocks == w.keyLocks
    ensures LocksInUse(next)
  {
  }

  lemma {:induction false} LocksStayInUse(start: Store, actions: seq<Action>, p: Policies)
    ensures LocksInUse(PerformAll(Quiet(start), actions, p))
  {
    hide Perform, LocksInUse;
    if actions == [] {
      assert LocksInUse(Quiet(start)) by { QuietLocks(start); }
    } else {
      LocksStayInUse(start, actions[..|actions| - 1], p);
      StepKeepsLocksInUse(PerformAll(Quiet(start), actions[..|actions| - 1], p), actions[|actions| - 1], p);
    }
  }

  lemma QuietLocks(start: Store)
    ensures LocksInUse(Quiet(start))
  {
  }

  predicate Unfinished(t: Txn) {
    !t.phase.Finished? && t.phase != Gone
  }

  /** A step that moves a transaction on its way, without dropping it. */
  ghost predicate MovesOn(w: World, a: Action, p: Policies) {
    !a.Arrive? && !a.Abort? && Perform(w, a, p) != w
  }

  lemma LateTransactionMoves(w: World, i: nat, p: Policies) returns (a: Action)
    requires i < |w.txns| && (Judging(w.txns[i]) || (w.txns[i].phase == Recovering && KeyOf(w.txns[i].k).Some?))
    requires w.txns[i].known <= Needs(w.txns[i].k.request)
    ensures MovesOn(w, a, p)
  {
    hide DecideRequest, ViewOf, Commit, Replay;
    var t := w.txns[i];
    if t.phase == Reading {
      if t.known == Needs(t.k.request) {
        a := Judge(i);
        assert Perform(w, a, p).txns[i].phase.Decided?;
      } else {
        var item :| item in Needs(t.k.request) && item !in t.known;
        a := Read(i, item);
        assert item in Perform(w, a, p).txns[i].known;
      }
    } else if t.phase.Decided? {
      a := Finish(i);
      assert !Perform(w, a, p).txns[i].phase.Decided?;
    } else {
      a := Recover(i);
      assert Perform(w, a, p).txns[i].phase.Finished?;
    }
  }

  /** The locks are taken in one order, so there is no deadlock: while any transaction is unfinished, some can move on. */
  lemma SomeTransactionMoves(start: Store, actions: seq<Action>, p: Policies, i: nat) returns (a: Action)
    requires Inv(start.db)
    requires i < |PerformAll(Quiet(start), actions, p).txns| && Unfinished(PerformAll(Quiet(start), actions, p).txns[i])
    ensures MovesOn(PerformAll(Quiet(start), actions, p), a, p)
  {
    hide PerformAll, Inv, IsSerial, StatusesMatch, SuccessesLogged;
    var w := PerformAll(Quiet(start), actions, p);
    RunsKeep(start, actions, p);
    LocksStayInUse(start, actions, p);
    a := MoveFrom(start, w, p, i);
  }

  lemma MoveFrom(start: Store, w: World, p: Policies, i: nat) returns (a: Action)
    requires WorldInv(start, w, p) && LocksInUse(w) && i < |w.txns| && Unfinished(w.txns[i])
    ensures MovesOn(w, a, p)
  {
    hide Inv, IsSerial, StatusesMatch, SuccessesLogged, ViewOf, DecideRequest, MovesOn;
    if exists j :: 0 <= j < |w.txns| && (Judging(w.txns[j]) || w.txns[j].phase == Recovering) {
      var j :| 0 <= j < |w.txns| && (Judging(w.txns[j]) || w.txns[j].phase == Recovering);
      assert HoldsItsLocks(w, j) && ViewIsCurrent(w.store.db, w.txns[j], p);
      a := LateTransactionMoves(w, j, p);
    } else if exists j :: 0 <= j < |w.txns| && w.txns[j].phase == OwnerHeld {
      var j :| 0 <= j < |w.txns| && w.txns[j].phase == OwnerHeld;
      assert HoldsItsLocks(w, j);
      a := EarlyTransactionMoves(w, j, p);
    } else if exists j :: 0 <= j < |w.txns| && w.txns[j].phase == KeyHeld {
      var j :| 0 <= j < |w.txns| && w.txns[j].phase == KeyHeld;
      a := EarlyTransactionMoves(w, j, p);
    } else {
      a := EarlyTransactionMoves(w, i, p);
    }
  }

  lemma EarlyTransactionMoves(w: World, i: nat, p: Policies) returns (a: Action)
    requires LocksInUse(w) && i < |w.txns|
    requires forall j :: 0 <= j < |w.txns| ==> !Judging(w.txns[j])
    requires w.txns[i].phase == Waiting || w.txns[i].phase == KeyHeld || w.txns[i].phase == OwnerHeld
    requires w.txns[i].phase == OwnerHeld ==> w.txns[i].k.request.Approve?
    requires w.txns[i].phase == KeyHeld ==> forall j :: 0 <= j < |w.txns| ==> w.txns[j].phase != OwnerHeld
    requires w.txns[i].phase == Waiting ==> forall j :: 0 <= j < |w.txns| ==> w.txns[j].phase != OwnerHeld && w.txns[j].phase != KeyHeld
    ensures MovesOn(w, a, p)
  {
    hide ViewOf, DecideRequest, RecommendationOf;
    var t := w.txns[i];
    if t.phase == Waiting {
      a := InsertKey(i);
      assert Perform(w, a, p).txns[i].phase != Waiting;
    } else if t.phase == KeyHeld && t.k.request.Propose? {
      a := Persist(i);
      assert Perform(w, a, p).txns[i].phase.Finished?;
    } else if t.phase == KeyHeld && !t.k.request.Reject? {
      a := LockOwner(i);
      assert Perform(w, a, p).txns[i].phase != KeyHeld;
    } else {
      a := LockRow(i);
      assert Perform(w, a, p).txns[i].phase == Reading;
    }
  }
}

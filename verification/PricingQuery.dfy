/** The pricing query: rows ranked inside their snapshot, the snapshot heads ranked inside their family, and the rows of
    the winning snapshots joined back. */
module PricingQuery {
  import opened Wrappers
  import opened Ordering
  import opened Lists
  import opened Grouping
  import opened Observations

  datatype Query = Query(leagues: set<string>, markets: set<MarketType>, cutoff: int, eventBounds: Option<(int, int)>)

  /** The conditions on the event and the market. */
  predicate InScope(q: Query, o: Observation) {
    && o.league in q.leagues && o.market in q.markets
    && (q.eventBounds.Some? ==> q.eventBounds.value.0 <= o.scheduledStart < q.eventBounds.value.1)
  }

  predicate IsCandidate(q: Query, o: Observation) {
    InScope(q, o) && KnownBy(o, q.cutoff)
  }

  function Candidate(q: Query): Observation -> bool {
    (o: Observation) => IsCandidate(q, o)
  }

  /** pricing_candidate_rows, before ranking. */
  function CandidateRows(rows: seq<Observation>, q: Query): seq<Observation> {
    Where(rows, Candidate(q))
  }

  // ----- row_number() -----

  /** The order inside a snapshot: newest first, the row id last. */
  predicate RowAhead(x: Observation, y: Observation) {
    KeyLess(StateKey(y) + [y.observationId as real], StateKey(x) + [x.observationId as real])
  }

  predicate SameSnapshot(x: Observation, y: Observation) {
    FamilyOf(x) == FamilyOf(y) && x.snapshotId == y.snapshotId
  }

  function AheadInSnapshot(o: Observation): Observation -> bool {
    (x: Observation) => SameSnapshot(x, o) && RowAhead(x, o)
  }

  /** row_number over (family, snapshot): one more than the rows of the partition that come before. */
  function SnapshotRowRank(rows: seq<Observation>, o: Observation): nat {
    1 + |Where(rows, AheadInSnapshot(o))|
  }

  function IsHead(rows: seq<Observation>): Observation -> bool {
    (o: Observation) => SnapshotRowRank(rows, o) == 1
  }

  /** pricing_snapshot_heads. */
  function SnapshotHeads(candidates: seq<Observation>): seq<Observation> {
    Where(candidates, IsHead(candidates))
  }

  function AheadInFamily(o: Observation): Observation -> bool {
    (x: Observation) => FamilyOf(x) == FamilyOf(o) && Newer(x, o)
  }

  function StateRank(heads: seq<Observation>, o: Observation): nat {
    1 + |Where(heads, AheadInFamily(o))|
  }

  function IsLatestState(heads: seq<Observation>): Observation -> bool {
    (o: Observation) => StateRank(heads, o) == 1
  }

  /** pricing_latest_states. */
  function LatestHeads(candidates: seq<Observation>): seq<Observation> {
    Where(SnapshotHeads(candidates), IsLatestState(SnapshotHeads(candidates)))
  }

  predicate JoinsLatest(latest: seq<Observation>, o: Observation) {
    exists h :: h in latest && SameSnapshot(h, o)
  }

  /** The final select: rows of a winning snapshot, known by the cutoff and in scope. */
  function Selected(q: Query, latest: seq<Observation>): Observation -> bool {
    (o: Observation) => JoinsLatest(latest, o) && IsCandidate(q, o)
  }

  /** The query's rows, as a collection: the order it puts them in is not part of this model. */
  function Answer(rows: seq<Observation>, q: Query): seq<Observation> {
    Where(rows, Selected(q, LatestHeads(CandidateRows(rows, q))))
  }

  // ----- What the two rankings select -----

  /** Ids identify rows. */
  ghost predicate DistinctIds(rows: seq<Observation>) {
    forall x, y :: x in rows && y in rows && x.observationId == y.observationId ==> x == y
  }

  lemma RowAheadIsOrder()
    ensures StrictWeakOrder(RowAhead)
  {
    forall x: Observation ensures !RowAhead(x, x) { KeyLessIrreflexive(StateKey(x) + [x.observationId as real]); }
    forall x: Observation, y: Observation, z: Observation
      ensures RowAhead(x, y) && RowAhead(y, z) ==> RowAhead(x, z)
      ensures !RowAhead(x, y) && !RowAhead(y, z) ==> !RowAhead(x, z)
    {
      KeyLessTransitive(StateKey(z) + [z.observationId as real], StateKey(y) + [y.observationId as real],
                        StateKey(x) + [x.observationId as real]);
    }
  }

  /** A row that is newer by its state is ahead by the longer key too. */
  lemma NewerIsAhead(x: Observation, y: Observation)
    ensures Newer(x, y) ==> RowAhead(x, y)
  {
    LongerKey(StateKey(y), StateKey(x), [y.observationId as real], [x.observationId as real]);
  }

  lemma {:induction false} LongerKey(a: seq<real>, b: seq<real>, c: seq<real>, d: seq<real>)
    requires |a| == |b|
    ensures KeyLess(a, b) ==> KeyLess(a + c, b + d)
  {
    if a != [] {
      LongerKey(a[1..], b[1..], c, d);
      assert (a + c)[1..] == a[1..] + c && (b + d)[1..] == b[1..] + d;
    }
  }

  lemma RankOne(rows: seq<Observation>, o: Observation)
    ensures SnapshotRowRank(rows, o) == 1 <==> forall x :: x in rows && SameSnapshot(x, o) ==> !RowAhead(x, o)
  {
    hide RowAhead, SameSnapshot;
    if SnapshotRowRank(rows, o) == 1 {
      assert Where(rows, AheadInSnapshot(o)) == [];
      forall x | x in rows && SameSnapshot(x, o) ensures !RowAhead(x, o) { assert x !in Where(rows, AheadInSnapshot(o)); }
    }
    if forall x :: x in rows && SameSnapshot(x, o) ==> !RowAhead(x, o) { WhereNone(rows, AheadInSnapshot(o)); }
  }

  lemma StateRankOne(heads: seq<Observation>, o: Observation)
    ensures StateRank(heads, o) == 1 <==> forall x :: x in heads && FamilyOf(x) == FamilyOf(o) ==> !Newer(x, o)
  {
    hide Newer, FamilyOf;
    if StateRank(heads, o) == 1 {
      assert Where(heads, AheadInFamily(o)) == [];
      forall x | x in heads && FamilyOf(x) == FamilyOf(o) ensures !Newer(x, o) { assert x !in Where(heads, AheadInFamily(o)); }
    }
    if forall x :: x in heads && FamilyOf(x) == FamilyOf(o) ==> !Newer(x, o) { WhereNone(heads, AheadInFamily(o)); }
  }

  function InSnapshotOf(o: Observation): Observation -> bool {
    (x: Observation) => SameSnapshot(x, o)
  }

  /** Each snapshot of a family has a head, and no row of it is newer than the head. */
  lemma HeadOf(candidates: seq<Observation>, o: Observation) returns (head: Observation)
    requires o in candidates
    ensures head in SnapshotHeads(candidates) && SameSnapshot(head, o) && !Newer(o, head)
    ensures forall x :: x in candidates && SameSnapshot(x, o) ==> !Newer(x, head)
  {
    hide Newer, RowAhead;
    RowAheadIsOrder();
    var own := Where(candidates, InSnapshotOf(o));
    assert o in own;
    FirstMinIsLeast(RowAhead, own);
    head := FirstMin(RowAhead, own);
    forall x | x in candidates && SameSnapshot(x, head) ensures !RowAhead(x, head) { assert x in own; }
    RankOne(candidates, head);
    forall x | x in candidates && SameSnapshot(x, o) ensures !Newer(x, head) {
      assert x in own;
      NewerIsAhead(x, head);
    }
  }

  /** A snapshot wins in its family exactly when it holds a row that no row of the family is newer than. */
  lemma WinnersAreNewest(candidates: seq<Observation>, o: Observation)
    requires o in candidates
    ensures JoinsLatest(LatestHeads(candidates), o) <==> NewestIn(candidates, FamilyOf(o), o.snapshotId)
  {
    hide Newer, RowAhead, SnapshotRowRank, StateRank;
    NewerIsOrder();
    var heads := SnapshotHeads(candidates);
    if JoinsLatest(LatestHeads(candidates), o) {
      var h :| h in LatestHeads(candidates) && SameSnapshot(h, o);
      StateRankOne(heads, h);
      forall x | x in candidates && FamilyOf(x) == FamilyOf(o) ensures !Newer(x, h) {
        var head := HeadOf(candidates, x);
        assert !Newer(head, h);
      }
    }
    if NewestIn(candidates, FamilyOf(o), o.snapshotId) {
      var lead :| lead in candidates && FamilyOf(lead) == FamilyOf(o) && lead.snapshotId == o.snapshotId
                  && forall x :: x in candidates && FamilyOf(x) == FamilyOf(o) ==> !Newer(x, lead);
      var head := HeadOf(candidates, lead);
      forall x | x in heads && FamilyOf(x) == FamilyOf(head) ensures !Newer(x, head) {
        assert !Newer(x, lead) && !Newer(lead, head);
      }
      StateRankOne(heads, head);
      assert head in LatestHeads(candidates);
    }
  }

  /** For every history and cutoff the query selects exactly the rows that the plain rule selects: keep what is in scope
      and known by the cutoff, then the latest snapshot of each family. */
  lemma QueryIsLatestStates(rows: seq<Observation>, q: Query, o: Observation)
    ensures o in Answer(rows, q) <==> o in LatestStates(Where(rows, Candidate(q)))
  {
    hide NewestIn, JoinsLatest, LatestHeads, LatestStates, IsCandidate;
    var candidates := CandidateRows(rows, q);
    LatestStatesAre(candidates, o);
    if o in candidates { WinnersAreNewest(candidates, o); }
  }

  lemma LatestStatesCount(rows: seq<Observation>, o: Observation)
    ensures multiset(LatestStates(rows))[o] == if o in LatestStates(rows) then multiset(rows)[o] else 0
  {
    hide LatestOf, FamilyOf;
    if o in LatestStates(rows) {
      var ks, g := FirstKeys(rows, FamilyOf), OnMembers(rows, FamilyOf, LatestOf);
      FlatMembers(ks, g, o);
      FirstKeysAre(rows, FamilyOf);
      var i :| 0 <= i < |ks| && o in g(ks[i]);
      forall j | 0 <= j < |ks| && j != i ensures o !in g(ks[j]) {
        LatestOfAre(Members(rows, FamilyOf, ks[j]), o);
        LatestOfAre(Members(rows, FamilyOf, ks[i]), o);
      }
      FlatCount(ks, g, o, i);
      LatestOfCount(Members(rows, FamilyOf, ks[i]), o);
      WhereCount(rows, HasKey(FamilyOf, ks[i]), o);
      assert o in Members(rows, FamilyOf, ks[i]);
    } else {
      assert multiset(LatestStates(rows))[o] == 0;
    }
  }

  lemma LatestOfCount(items: seq<Observation>, o: Observation)
    requires o in LatestOf(items)
    ensures multiset(LatestOf(items))[o] == multiset(items)[o]
  {
    WhereCount(items, InSnapshot(FirstMin(Newer, items).snapshotId), o);
  }

  /** Row for row, the query returns what the plain rule returns. */
  lemma QueryReturnsLatestStates(rows: seq<Observation>, q: Query)
    ensures multiset(Answer(rows, q)) == multiset(LatestStates(Where(rows, Candidate(q))))
  {
    hide LatestHeads, LatestStates, IsCandidate;
    forall o ensures multiset(Answer(rows, q))[o] == multiset(LatestStates(Where(rows, Candidate(q))))[o] {
      QueryIsLatestStates(rows, q, o);
      LatestStatesCount(Where(rows, Candidate(q)), o);
      WhereCount(rows, Selected(q, LatestHeads(CandidateRows(rows, q))), o);
      WhereCount(rows, Candidate(q), o);
      LatestStatesWithin(Where(rows, Candidate(q)), o);
    }
  }

  lemma LatestStatesWithin(rows: seq<Observation>, o: Observation)
    ensures o in LatestStates(rows) ==> o in rows
  {
    LatestStatesAre(rows, o);
  }

  // ----- Ranks are row numbers: no two rows of a partition share one -----

  lemma {:induction false} FewerAhead(rows: seq<Observation>, p: Observation -> bool, r: Observation -> bool)
    requires forall x <- rows :: p(x) ==> r(x)
    ensures |Where(rows, p)| <= |Where(rows, r)|
    ensures (exists x :: x in rows && r(x) && !p(x)) ==> |Where(rows, p)| < |Where(rows, r)|
  {
    if rows != [] {
      assert rows == [rows[0]] + rows[1..];
      FewerAhead(rows[1..], p, r);
    }
  }

  lemma AheadRanksLower(rows: seq<Observation>, x: Observation, y: Observation)
    requires x in rows && SameSnapshot(x, y) && RowAhead(x, y)
    ensures SnapshotRowRank(rows, x) < SnapshotRowRank(rows, y)
  {
    hide RowAhead;
    RowAheadIsOrder();
    FewerAhead(rows, AheadInSnapshot(x), AheadInSnapshot(y));
    assert AheadInSnapshot(y)(x) && !AheadInSnapshot(x)(x);
  }

  /** Inside a snapshot every row has its own rank, so exactly one row is its head. */
  lemma RowRanksDiffer(rows: seq<Observation>, x: Observation, y: Observation)
    requires DistinctIds(rows) && x in rows && y in rows && x != y && SameSnapshot(x, y)
    ensures SnapshotRowRank(rows, x) != SnapshotRowRank(rows, y)
  {
    var kx, ky := StateKey(x) + [x.observationId as real], StateKey(y) + [y.observationId as real];
    assert kx[4] != ky[4];
    if RowAhead(x, y) {
      AheadRanksLower(rows, x, y);
    } else {
      if !RowAhead(y, x) { KeyLessTotal(kx, ky); }
      AheadRanksLower(rows, y, x);
    }
  }

  /** Inside a family every snapshot head has its own rank, so one snapshot wins. */
  lemma StateRanksDiffer(candidates: seq<Observation>, x: Observation, y: Observation)
    requires DistinctIds(candidates) && x in SnapshotHeads(candidates) && y in SnapshotHeads(candidates)
    requires x != y && FamilyOf(x) == FamilyOf(y)
    ensures StateRank(SnapshotHeads(candidates), x) != StateRank(SnapshotHeads(candidates), y)
  {
    var heads := SnapshotHeads(candidates);
    if x.snapshotId == y.snapshotId { RowRanksDiffer(candidates, x, y); }
    assert StateKey(x)[3] != StateKey(y)[3];
    NewerIsOrder();
    if Newer(x, y) {
      NewerRanksLower(heads, x, y);
    } else {
      if !Newer(y, x) { KeyLessTotal(StateKey(x), StateKey(y)); }
      NewerRanksLower(heads, y, x);
    }
  }

  lemma NewerRanksLower(heads: seq<Observation>, x: Observation, y: Observation)
    requires x in heads && FamilyOf(x) == FamilyOf(y) && Newer(x, y)
    ensures StateRank(heads, x) < StateRank(heads, y)
  {
    hide Newer;
    NewerIsOrder();
    FewerAhead(heads, AheadInFamily(x), AheadInFamily(y));
    assert AheadInFamily(y)(x) && !AheadInFamily(x)(x);
  }

  // ----- The scope may be applied before or after -----

  /** The league and the start come from the event, so they are the same for all rows of an event. */
  ghost predicate EventColumnsAgree(rows: seq<Observation>) {
    forall x, y :: x in rows && y in rows && x.eventId == y.eventId ==> x.league == y.league && x.scheduledStart == y.scheduledStart
  }

  /** The scope keeps or drops whole families, so the query agrees with taking the latest known states of everything and
      then keeping what is in scope. */
  lemma ScopeAfterLatest(rows: seq<Observation>, q: Query, o: Observation)
    requires EventColumnsAgree(rows)
    ensures o in Answer(rows, q) <==> o in LatestStates(Where(rows, Known(q.cutoff))) && InScope(q, o)
  {
    QueryIsLatestStates(rows, q, o);
    hide Newer, LatestStates, Answer;
    var candidates, known := Where(rows, Candidate(q)), Where(rows, Known(q.cutoff));
    LatestStatesAre(candidates, o);
    LatestStatesAre(known, o);
    if o in rows && InScope(q, o) {
      forall x | x in rows && FamilyOf(x) == FamilyOf(o) ensures InScope(q, x) {}
      assert forall x :: FamilyOf(x) == FamilyOf(o) ==> (x in candidates <==> x in known);
    }
  }
}

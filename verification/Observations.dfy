/** Market observations, the latest snapshot of each book's market, and which rows pricing may use. */
module Observations {
  import opened Wrappers
  import opened Ordering
  import opened Lists
  import opened Grouping
  import opened MarketCurve
  import opened Pricing
  import MarketEvents

  datatype MarketType = Moneyline | SpreadMarket | TotalMarket

  /** A row of the observation table with its event, book and snapshot. Times are in microseconds; a side that is none of
      the four is None. */
  datatype Observation = Observation(
    observationId: nat,
    snapshotId: nat,
    eventId: nat,
    league: string,
    homeTeam: string,
    awayTeam: string,
    scheduledStart: int,
    eventReview: MarketEvents.Review,
    sportsbookId: nat,
    sportsbookKey: string,
    sportsbookActive: bool,
    market: MarketType,
    period: string,
    side: Option<Side>,
    point: Option<real>,
    americanOdds: Odds,
    requestedAt: int,
    observedAt: int,
    ingestedAt: int,
    staleAfterSeconds: int,
    active: bool,
    matchReview: MarketEvents.Review)

  datatype Family = Family(eventId: nat, sportsbookId: nat, market: MarketType, period: string)

  function FamilyOf(o: Observation): Family {
    Family(o.eventId, o.sportsbookId, o.market, o.period)
  }

  predicate KnownBy(o: Observation, cutoff: int) {
    o.observedAt <= cutoff && o.requestedAt <= cutoff && o.ingestedAt <= cutoff
  }

  function Known(cutoff: int): Observation -> bool {
    (o: Observation) => KnownBy(o, cutoff)
  }

  // ----- The latest state of a family -----

  function StateKey(o: Observation): seq<real> {
    [o.requestedAt as real, o.observedAt as real, o.ingestedAt as real, o.snapshotId as real]
  }

  predicate Newer(x: Observation, y: Observation) {
    KeyLess(StateKey(y), StateKey(x))
  }

  lemma NewerIsOrder()
    ensures StrictWeakOrder(Newer)
  {
    forall x: Observation ensures !Newer(x, x) { KeyLessIrreflexive(StateKey(x)); }
    forall x: Observation, y: Observation, z: Observation
      ensures Newer(x, y) && Newer(y, z) ==> Newer(x, z)
      ensures !Newer(x, y) && !Newer(y, z) ==> !Newer(x, z)
    {
      KeyLessTransitive(StateKey(z), StateKey(y), StateKey(x));
    }
  }

  function InSnapshot(id: nat): Observation -> bool {
    (o: Observation) => o.snapshotId == id
  }

  /** The rows of one family that belong to its newest row's snapshot. */
  function LatestOf(items: seq<Observation>): (r: seq<Observation>)
    ensures forall o <- r :: o in items
  {
    if items == [] then [] else Where(items, InSnapshot(FirstMin(Newer, items).snapshotId))
  }

  function LatestStates(rows: seq<Observation>): seq<Observation> {
    OverGroups(rows, FamilyOf, LatestOf)
  }

  /** The newest row may not be unique, but its snapshot is. */
  lemma NewestSnapshotIs(items: seq<Observation>, o: Observation)
    requires items != [] && o in items && forall x <- items :: !Newer(x, o)
    ensures FirstMin(Newer, items).snapshotId == o.snapshotId
  {
    NewerIsOrder();
    FirstMinIsLeast(Newer, items);
    var head := FirstMin(Newer, items);
    KeyLessTotal(StateKey(head), StateKey(o));
    assert StateKey(head)[3] == StateKey(o)[3];
  }

  lemma LatestOfPermutes(a: seq<Observation>, b: seq<Observation>)
    requires multiset(a) == multiset(b)
    ensures multiset(LatestOf(a)) == multiset(LatestOf(b))
  {
    if a == [] || b == [] {
      assert |multiset(a)| == |a| && |multiset(b)| == |b|;
    } else {
      NewerIsOrder();
      FirstMinIsLeast(Newer, a);
      var head := FirstMin(Newer, a);
      assert head in multiset(b);
      forall x | x in b ensures !Newer(x, head) { assert x in multiset(a); }
      NewestSnapshotIs(b, head);
      WherePermutes(a, b, InSnapshot(head.snapshotId));
    }
  }

  lemma LatestStatesPermute(a: seq<Observation>, b: seq<Observation>)
    requires multiset(a) == multiset(b)
    ensures multiset(LatestStates(a)) == multiset(LatestStates(b))
  {
    forall k | k in FirstKeys(a, FamilyOf)
      ensures multiset(LatestOf(Members(a, FamilyOf, k))) == multiset(LatestOf(Members(b, FamilyOf, k)))
    {
      WherePermutes(a, b, HasKey(FamilyOf, k));
      LatestOfPermutes(Members(a, FamilyOf, k), Members(b, FamilyOf, k));
    }
    OverGroupsPermutes(a, b, FamilyOf, LatestOf);
  }

  /** No row of the family is newer than every row of the snapshot. */
  ghost predicate NewestIn(rows: seq<Observation>, family: Family, snapshot: nat) {
    exists o :: o in rows && FamilyOf(o) == family && o.snapshotId == snapshot
                && forall x :: x in rows && FamilyOf(x) == family ==> !Newer(x, o)
  }

  lemma LatestOfAre(items: seq<Observation>, o: Observation)
    ensures o in LatestOf(items) ==> o in items && exists head :: head in items && head.snapshotId == o.snapshotId && Leads(items, head)
    ensures o in items && (exists head :: head in items && head.snapshotId == o.snapshotId && Leads(items, head)) ==> o in LatestOf(items)
  {
    NewerIsOrder();
    if items != [] {
      FirstMinIsLeast(Newer, items);
      assert Leads(items, FirstMin(Newer, items));
      if o in items && exists head :: head in items && head.snapshotId == o.snapshotId && Leads(items, head) {
        var head :| head in items && head.snapshotId == o.snapshotId && Leads(items, head);
        NewestSnapshotIs(items, head);
      }
    }
  }

  ghost predicate Leads(items: seq<Observation>, o: Observation) {
    forall x <- items :: !Newer(x, o)
  }

  lemma NewestInMembers(rows: seq<Observation>, family: Family, snapshot: nat)
    ensures NewestIn(rows, family, snapshot)
            <==> exists head :: head in Members(rows, FamilyOf, family) && head.snapshotId == snapshot
                                && Leads(Members(rows, FamilyOf, family), head)
  {
    hide Newer;
    var own := Members(rows, FamilyOf, family);
    if NewestIn(rows, family, snapshot) {
      var head :| head in rows && FamilyOf(head) == family && head.snapshotId == snapshot
                  && forall x :: x in rows && FamilyOf(x) == family ==> !Newer(x, head);
      assert head in own && Leads(own, head);
    }
    if exists head :: head in own && head.snapshotId == snapshot && Leads(own, head) {
      var head :| head in own && head.snapshotId == snapshot && Leads(own, head);
      forall x | x in rows && FamilyOf(x) == family ensures !Newer(x, head) { assert x in own; }
    }
  }

  /** What the latest states are, row by row. */
  lemma LatestStatesAre(rows: seq<Observation>, o: Observation)
    ensures o in LatestStates(rows) <==> o in rows && NewestIn(rows, FamilyOf(o), o.snapshotId)
  {
    hide NewestIn, LatestOf, Leads;
    var ks, g := FirstKeys(rows, FamilyOf), OnMembers(rows, FamilyOf, LatestOf);
    FlatMembers(ks, g, o);
    FirstKeysAre(rows, FamilyOf);
    NewestInMembers(rows, FamilyOf(o), o.snapshotId);
    LatestOfAre(Members(rows, FamilyOf, FamilyOf(o)), o);
    if o in LatestStates(rows) {
      var i :| 0 <= i < |ks| && o in g(ks[i]);
      LatestOfAre(Members(rows, FamilyOf, ks[i]), o);
      assert ks[i] == FamilyOf(o);
    }
    if o in rows && NewestIn(rows, FamilyOf(o), o.snapshotId) {
      assert FamilyOf(o) in ks;
      var i :| 0 <= i < |ks| && ks[i] == FamilyOf(o);
      assert o in Members(rows, FamilyOf, ks[i]);
      assert o in g(ks[i]);
    }
  }

  lemma LatestOfLatest(items: seq<Observation>)
    requires items != []
    ensures LatestOf(items) != [] && LatestOf(LatestOf(items)) == LatestOf(items)
  {
    NewerIsOrder();
    FirstMinIsLeast(Newer, items);
    var head, latest := FirstMin(Newer, items), LatestOf(items);
    assert head in latest;
    NewestSnapshotIs(latest, head);
    WhereAll(latest, InSnapshot(head.snapshotId));
  }

  /** Taking the latest states again changes nothing. */
  lemma LatestStatesIdempotent(rows: seq<Observation>)
    ensures LatestStates(LatestStates(rows)) == LatestStates(rows)
  {
    var ks, g := FirstKeys(rows, FamilyOf), OnMembers(rows, FamilyOf, LatestOf);
    var once := LatestStates(rows);
    FirstKeysAre(rows, FamilyOf);
    hide LatestOf, Newer;
    forall i | 0 <= i < |ks| ensures g(ks[i]) != [] && (forall x <- g(ks[i]) :: FamilyOf(x) == ks[i]) && LatestOf(g(ks[i])) == g(ks[i]) {
      assert ks[i] in ks;
      var x :| x in rows && FamilyOf(x) == ks[i];
      assert x in Members(rows, FamilyOf, ks[i]);
      LatestOfLatest(Members(rows, FamilyOf, ks[i]));
    }
    Regroup(ks, g, FamilyOf);
    var h := OnMembers(once, FamilyOf, LatestOf);
    forall i | 0 <= i < |ks| ensures h(ks[i]) == g(ks[i]) { assert Members(once, FamilyOf, ks[i]) == g(ks[i]); }
    SameFlat(ks, h, g);
  }

  lemma {:induction false} SameFlat<K, U>(ks: seq<K>, g: K -> seq<U>, h: K -> seq<U>)
    requires forall i :: 0 <= i < |ks| ==> g(ks[i]) == h(ks[i])
    ensures Flat(ks, g) == Flat(ks, h)
  {
    if ks != [] {
      assert forall i :: 0 <= i < |ks[..|ks| - 1]| ==> ks[..|ks| - 1][i] == ks[i];
      SameFlat(ks[..|ks| - 1], g, h);
    }
  }

  /** The loop over the families. */
  method SelectLatest(rows: seq<Observation>) returns (selected: seq<Observation>)
    ensures selected == LatestStates(rows)
  {
    hide LatestOf;
    var groups := GroupInOrder(rows, FamilyOf);
    ghost var ks, g := FirstKeys(rows, FamilyOf), OnMembers(rows, FamilyOf, LatestOf);
    selected := [];
    for i := 0 to |groups|
      invariant selected == Flat(ks[..i], g)
    {
      assert ks[..i + 1][..i] == ks[..i];
      assert groups[i] == Members(rows, FamilyOf, ks[i]);
      selected := selected + LatestOf(groups[i]);
    }
    assert ks[..|groups|] == ks;
  }

  // ----- Eligibility -----

  datatype PricingPolicy = PricingPolicy(
    minimumBooks: nat,
    minimumEv: real,
    minimumEdge: real,
    outlierThreshold: real,
    maximumDispersion: real,
    supportedBooks: set<string>,
    maximumQuoteAgeSeconds: int)
  {
    predicate Valid() {
      minimumBooks >= 2 && outlierThreshold >= 0.0 && maximumDispersion >= 0.0 && supportedBooks != {} && maximumQuoteAgeSeconds > 0
    }
  }

  /** Whole seconds from one time to a later one, zero when it is not later. */
  function AgeSeconds(from: int, to: int): nat {
    if to <= from then 0 else (to - from) / 1000000
  }

  predicate IsEligible(o: Observation, cutoff: int, policy: PricingPolicy) {
    && o.sportsbookKey in policy.supportedBooks && o.sportsbookActive
    && o.eventReview == MarketEvents.Matched && o.matchReview == MarketEvents.Matched
    && o.active
    && o.scheduledStart > cutoff
    && AgeSeconds(o.requestedAt, cutoff) <= o.staleAfterSeconds
    && AgeSeconds(o.observedAt, o.requestedAt) <= policy.maximumQuoteAgeSeconds
  }

  function Eligible(cutoff: int, policy: PricingPolicy): Observation -> bool {
    (o: Observation) => IsEligible(o, cutoff, policy)
  }

  /** An observation read while its event's provider id leads to several events is never priced, whatever the review was
      when it was stored. */
  lemma AmbiguousEventIsNotEligible(c: MarketEvents.Catalog, t: MarketEvents.Reader, key: MarketEvents.ProviderKey, o: Observation,
                                    cutoff: int, policy: PricingPolicy)
    requires MarketEvents.Sound(c, t) && |Where(c.mappings, MarketEvents.ForKey(key))| >= 2
    requires MarketEvents.Maps(c.mappings, key, o.eventId)
    requires o.eventId in c.events && o.eventReview == c.events[o.eventId].review
    ensures !IsEligible(o, cutoff, policy)
  {
    var m :| m in c.mappings && m.key == key && m.eventId == o.eventId;
    assert m in Where(c.mappings, MarketEvents.ForKey(key));
    assert MarketEvents.ReviewedFor(c, key);
  }

  /** The rows that pricing works on. */
  function Usable(rows: seq<Observation>, cutoff: int, policy: PricingPolicy): seq<Observation> {
    Where(LatestStates(Where(rows, Known(cutoff))), Eligible(cutoff, policy))
  }

  lemma UsablePermutes(a: seq<Observation>, b: seq<Observation>, cutoff: int, policy: PricingPolicy)
    requires multiset(Where(a, Known(cutoff))) == multiset(Where(b, Known(cutoff)))
    ensures multiset(Usable(a, cutoff, policy)) == multiset(Usable(b, cutoff, policy))
  {
    LatestStatesPermute(Where(a, Known(cutoff)), Where(b, Known(cutoff)));
    WherePermutes(LatestStates(Where(a, Known(cutoff))), LatestStates(Where(b, Known(cutoff))), Eligible(cutoff, policy));
  }

  /** Rows of one family that pricing works on come from one snapshot. */
  lemma UsableShareSnapshot(rows: seq<Observation>, cutoff: int, policy: PricingPolicy, x: Observation, y: Observation)
    requires x in Usable(rows, cutoff, policy) && y in Usable(rows, cutoff, policy) && FamilyOf(x) == FamilyOf(y)
    ensures x.snapshotId == y.snapshotId
  {
    var known := Where(rows, Known(cutoff));
    LatestStatesAre(known, x);
    LatestStatesAre(known, y);
    var p :| p in known && FamilyOf(p) == FamilyOf(x) && p.snapshotId == x.snapshotId
             && forall z :: z in known && FamilyOf(z) == FamilyOf(x) ==> !Newer(z, p);
    var q :| q in known && FamilyOf(q) == FamilyOf(y) && q.snapshotId == y.snapshotId
             && forall z :: z in known && FamilyOf(z) == FamilyOf(y) ==> !Newer(z, q);
    KeyLessTotal(StateKey(p), StateKey(q));
    assert StateKey(p)[3] == StateKey(q)[3];
  }
}

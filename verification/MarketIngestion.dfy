/** Persisting one fetch: every game resolved, every readable offer stored once. */
module MarketIngestion {
  import opened Wrappers
  import opened Lists
  import opened MarketEvents

  datatype Row = Row(eventId: nat, quote: Quote)

  /** What the unique constraint on observations compares within a snapshot. */
  datatype Identity = Identity(eventId: nat, book: nat, market: string, side: string, pointKey: string)

  datatype Warning =
    | EventNotNormalized(providerEventId: string, why: ResolveError)
    | ObservationNotNormalized(providerEventId: string)
    | DuplicateSkipped(providerEventId: string)

  datatype Ingest = Ingest(catalog: Catalog, rows: seq<Row>, warnings: seq<Warning>, eventsCreated: nat)

  function IdentityOf(r: Row): Identity {
    Identity(r.eventId, r.quote.book, r.quote.market, r.quote.side, r.quote.pointKey)
  }

  predicate Seen(rows: seq<Row>, id: Identity) {
    exists r :: r in rows && IdentityOf(r) == id
  }

  // ----- Specification -----

  function AddOffers(rows: seq<Row>, warnings: seq<Warning>, t: Reader, event: Event, eventId: nat, gameId: string,
                     offers: seq<Offer>): (seq<Row>, seq<Warning>) {
    if offers == [] then (rows, warnings)
    else
      var (before, told) := AddOffers(rows, warnings, t, event, eventId, gameId, offers[..|offers| - 1]);
      match t.quote(event, offers[|offers| - 1])
      case None => (before, told + [ObservationNotNormalized(gameId)])
      case Some(quote) =>
        if Seen(before, IdentityOf(Row(eventId, quote))) then (before, told + [DuplicateSkipped(gameId)])
        else (before + [Row(eventId, quote)], told)
  }

  function AddGame(done: Ingest, t: Reader, fetch: Fetch, game: Game): Ingest {
    match Resolve(done.catalog, t, fetch, game)
    case Err(why) => done.(warnings := done.warnings + [EventNotNormalized(game.providerEventId, why)])
    case Ok(r) =>
      if r.eventId !in r.catalog.events then done
      else
        var (rows, warnings) := AddOffers(done.rows, done.warnings, t, r.catalog.events[r.eventId], r.eventId,
                                          game.providerEventId, game.offers);
        Ingest(r.catalog, rows, warnings, done.eventsCreated + (if r.created then 1 else 0))
  }

  function AddGames(start: Ingest, t: Reader, fetch: Fetch, games: seq<Game>): Ingest {
    if games == [] then start
    else AddGame(AddGames(start, t, fetch, games[..|games| - 1]), t, fetch, games[|games| - 1])
  }

  /** Specification of persisting a fetch into a new snapshot. */
  function Persist(c: Catalog, t: Reader, fetch: Fetch, providerWarnings: seq<Warning>): Ingest {
    AddGames(Ingest(c, [], providerWarnings, 0), t, fetch, fetch.games)
  }

  // ----- The repository as it runs -----

  class MarketStore {
    const reader: Reader
    var events: map<nat, Event>
    var mappings: seq<Mapping>
    var nextId: nat

    constructor (reader: Reader)
      ensures this.reader == reader && Tables() == Catalog(map[], [], 0) && Valid()
    {
      this.reader := reader;
      events, mappings, nextId := map[], [], 0;
      new;
      EmptyCatalogSound(reader);
    }

    function Tables(): Catalog
      reads this
    {
      Catalog(events, mappings, nextId)
    }

    ghost predicate Valid()
      reads this
    {
      Sound(Tables(), reader)
    }

    /** Puts every mapping of a key and the event behind it into conflict, one candidate after another. */
    method MarkConflict(key: ProviderKey)
      modifies this`events, this`mappings
      ensures Tables() == Doubt(old(Tables()), key)
    {
      hide DoubtEvents;
      ghost var before := Tables();
      DoubtNothing(events, key);
      for i := 0 to |mappings|
        invariant events.Keys == before.events.Keys
        invariant nextId == before.nextId && |mappings| == |before.mappings|
        invariant mappings == DoubtMappings(before.mappings, key, i)
        invariant events == DoubtEvents(before.events, before.mappings[..i], key)
      {
        var mapping := mappings[i];
        assert mapping == before.mappings[i];
        assert before.mappings[..i + 1] == before.mappings[..i] + [mapping];
        DoubtEventsAppend(before.events, before.mappings[..i], mapping, key);
        if mapping.key == key {
          mappings := mappings[i := Doubted(mapping)];
          if mapping.eventId in events {
            events := events[mapping.eventId := events[mapping.eventId].(review := Conflict, confidence := 0.0)];
          }
        }
      }
      assert before.mappings[..|mappings|] == before.mappings;
    }

    /** Finds the event a game belongs to, or creates one and settles who is in doubt. */
    method ResolveEvent(fetch: Fetch, game: Game) returns (r: Result<(nat, bool), ResolveError>)
      modifies this
      ensures match Resolve(old(Tables()), reader, fetch, game)
              case Err(why) => r == Err(why) && Tables() == old(Tables())
              case Ok(resolved) => r == Ok((resolved.eventId, resolved.created)) && Tables() == resolved.catalog
    {
      hide Where, Doubt, SameEvent;
      ghost var before := Tables();
      if game.homeTeam == "" || game.awayTeam == "" {
        return Err(MissingTeams);
      }
      if game.start.None? {
        return Err(MissingStart);
      }
      var candidates := Candidates(Tables(), fetch, game);
      for i := 0 to |candidates|
        invariant Tables() == before
        invariant FirstSame(before, reader, candidates, fetch.league, game) == FirstSame(before, reader, candidates[i..], fetch.league, game)
      {
        assert candidates[i..][0] == candidates[i] && candidates[i..][1..] == candidates[i + 1..];
        if IsSame(Tables(), reader, candidates[i], fetch.league, game) {
          var id := candidates[i].eventId;
          if game.status != "" {
            events := events[id := events[id].(status := game.status)];
          }
          return Ok((id, false));
        }
      }
      var conflict := candidates != [];
      var event := NewEvent(reader, fetch, game, game.start.value, conflict);
      var id, key := nextId, KeyOfGame(fetch, game);
      if conflict {
        MarkConflict(key);
      }
      events := events[id := event];
      if game.providerEventId != "" {
        mappings := mappings + [Mapping(key, id, event.review, event.confidence)];
      }
      nextId := nextId + 1;
      return Ok((id, true));
    }

    /** Stores a fetch: a game that cannot be read is warned about and passed over, as is an offer. */
    method PersistFetch(fetch: Fetch, providerWarnings: seq<Warning>)
      returns (rows: seq<Row>, warnings: seq<Warning>, eventsCreated: nat)
      requires Valid()
      modifies this
      ensures Valid()
      ensures Ingest(Tables(), rows, warnings, eventsCreated) == Persist(old(Tables()), reader, fetch, providerWarnings)
    {
      hide Resolve, Sound;
      ghost var start := Ingest(Tables(), [], providerWarnings, 0);
      rows, warnings, eventsCreated := [], providerWarnings, 0;
      for i := 0 to |fetch.games|
        invariant Valid()
        invariant Ingest(Tables(), rows, warnings, eventsCreated) == AddGames(start, reader, fetch, fetch.games[..i])
      {
        assert fetch.games[..i + 1][..i] == fetch.games[..i];
        var game := fetch.games[i];
        ghost var before := Tables();
        var resolved := ResolveEvent(fetch, game);
        if resolved.Err? {
          warnings := warnings + [EventNotNormalized(game.providerEventId, resolved.error)];
          continue;
        }
        ResolveKeeps(before, reader, fetch, game);
        var (eventId, created) := resolved.value;
        eventsCreated := eventsCreated + (if created then 1 else 0);
        rows, warnings := StoreOffers(rows, warnings, events[eventId], eventId, game);
      }
      assert fetch.games[..|fetch.games|] == fetch.games;
    }

    method StoreOffers(rows: seq<Row>, warnings: seq<Warning>, event: Event, eventId: nat, game: Game)
      returns (stored: seq<Row>, told: seq<Warning>)
      ensures (stored, told) == AddOffers(rows, warnings, reader, event, eventId, game.providerEventId, game.offers)
    {
      stored, told := rows, warnings;
      var seen := set r | r in rows :: IdentityOf(r);
      for i := 0 to |game.offers|
        invariant (stored, told) == AddOffers(rows, warnings, reader, event, eventId, game.providerEventId, game.offers[..i])
        invariant seen == set r | r in stored :: IdentityOf(r)
      {
        assert game.offers[..i + 1][..i] == game.offers[..i];
        var quote := reader.quote(event, game.offers[i]);
        if quote.None? {
          told := told + [ObservationNotNormalized(game.providerEventId)];
          continue;
        }
        var row := Row(eventId, quote.value);
        if IdentityOf(row) in seen {
          told := told + [DuplicateSkipped(game.providerEventId)];
          continue;
        }
        seen := seen + {IdentityOf(row)};
        stored := stored + [row];
      }
      assert game.offers[..|game.offers|] == game.offers;
    }
  }

  lemma MapsAppend(mappings: seq<Mapping>, m: Mapping, key: ProviderKey, id: nat)
    ensures Maps(mappings + [m], key, id) <==> Maps(mappings, key, id) || (m.key == key && m.eventId == id)
  {
    if Maps(mappings, key, id) {
      var n :| n in mappings && n.key == key && n.eventId == id;
      assert n in mappings + [m];
    }
    assert m in mappings + [m];
  }

  /** One more mapping taken into account changes the event it names, or nothing. */
  lemma DoubtEventsAppend(events: map<nat, Event>, mappings: seq<Mapping>, m: Mapping, key: ProviderKey)
    ensures var before, after := DoubtEvents(events, mappings, key), DoubtEvents(events, mappings + [m], key);
            && before.Keys == events.Keys && after.Keys == events.Keys
            && after == if m.key == key && m.eventId in events
                        then before[m.eventId := before[m.eventId].(review := Conflict, confidence := 0.0)] else before
  {
    forall id | id in events ensures Maps(mappings + [m], key, id) <==> Maps(mappings, key, id) || (m.key == key && m.eventId == id) {
      MapsAppend(mappings, m, key, id);
    }
  }

  lemma DoubtNothing(events: map<nat, Event>, key: ProviderKey)
    ensures DoubtEvents(events, [], key) == events
  {
  }

  // ----- What a persisted fetch guarantees -----

  /** No two stored rows of a snapshot share an identity, so the unique constraint never fires. */
  ghost predicate DistinctRows(rows: seq<Row>) {
    forall i, j :: 0 <= i < j < |rows| ==> IdentityOf(rows[i]) != IdentityOf(rows[j])
  }

  lemma {:induction false} OffersStoredOnce(rows: seq<Row>, warnings: seq<Warning>, t: Reader, event: Event, eventId: nat,
                                            gameId: string, offers: seq<Offer>)
    requires DistinctRows(rows)
    ensures var (after, told) := AddOffers(rows, warnings, t, event, eventId, gameId, offers);
            && DistinctRows(after) && rows <= after && warnings <= told
            && |after| - |rows| + |told| - |warnings| == |offers|
            && (forall o <- offers :: t.quote(event, o).Some? ==> Seen(after, IdentityOf(Row(eventId, t.quote(event, o).value))))
  {
    if offers != [] {
      var front, last := offers[..|offers| - 1], offers[|offers| - 1];
      OffersStoredOnce(rows, warnings, t, event, eventId, gameId, front);
      var (before, earlier) := AddOffers(rows, warnings, t, event, eventId, gameId, front);
      var (after, told) := AddOffers(rows, warnings, t, event, eventId, gameId, offers);
      forall id | Seen(before, id) ensures Seen(after, id) {
        var r :| r in before && IdentityOf(r) == id;
        assert r in after;
      }
      assert offers == front + [last];
      if t.quote(event, last).Some? && !Seen(before, IdentityOf(Row(eventId, t.quote(event, last).value))) {
        assert after[|before|] in after;
        forall i, j | 0 <= i < j < |after| ensures IdentityOf(after[i]) != IdentityOf(after[j]) {
          if j == |before| { assert before[i] in before; }
        }
      }
    }
  }

  function OffersIn(games: seq<Game>): nat {
    if games == [] then 0 else OffersIn(games[..|games| - 1]) + |games[|games| - 1].offers|
  }

  /** Over any fetch: stored rows are distinct, nothing is stored for offers that were not sent, and the catalog is the
      one that resolving the games in order leaves. */
  lemma {:induction false} GamesStoredOnce(start: Ingest, t: Reader, fetch: Fetch, games: seq<Game>)
    requires Sound(start.catalog, t) && DistinctRows(start.rows)
    ensures var after := AddGames(start, t, fetch, games);
            && Sound(after.catalog, t) && DistinctRows(after.rows)
            && after.catalog == ResolveAll(start.catalog, t, fetch, games)
            && after.catalog.nextId == start.catalog.nextId + (after.eventsCreated - start.eventsCreated)
            && after.eventsCreated >= start.eventsCreated
            && |start.rows| <= |after.rows| <= |start.rows| + OffersIn(games)
  {
    hide Sound, Resolve, AddOffers;
    if games != [] {
      var front, last := games[..|games| - 1], games[|games| - 1];
      GamesStoredOnce(start, t, fetch, front);
      var before := AddGames(start, t, fetch, front);
      match Resolve(before.catalog, t, fetch, last) {
        case Err(_) =>
        case Ok(r) =>
          ResolveKeeps(before.catalog, t, fetch, last);
          CreatedTakesAnId(before.catalog, t, fetch, last);
          OffersStoredOnce(before.rows, before.warnings, t, r.catalog.events[r.eventId], r.eventId, last.providerEventId, last.offers);
      }
    }
  }

  lemma CreatedTakesAnId(c: Catalog, t: Reader, fetch: Fetch, game: Game)
    requires Resolve(c, t, fetch, game).Ok?
    ensures var r := Resolve(c, t, fetch, game).value;
            r.catalog.nextId == c.nextId + (if r.created then 1 else 0)
  {
    hide Where, FirstSame, SameEvent;
  }

  /** Persisting the same usable fetch again creates no event. */
  lemma RefetchCreatesNoEvent(c: Catalog, t: Reader, fetch: Fetch, warnings: seq<Warning>, between: seq<Fetch>)
    requires Sound(c, t) && forall g <- fetch.games :: Usable(g)
    ensures Persist(AfterFetches(Persist(c, t, fetch, warnings).catalog, t, between), t, fetch, warnings).eventsCreated == 0
  {
    hide Sound, ResolveAll, AddGames, AfterFetches;
    GamesStoredOnce(Ingest(c, [], warnings, 0), t, fetch, fetch.games);
    var first := Persist(c, t, fetch, warnings).catalog;
    FetchesKeep(first, t, between);
    var once := AfterFetches(first, t, between);
    GamesStoredOnce(Ingest(once, [], warnings, 0), t, fetch, fetch.games);
    ReingestCreatesNothing(c, t, fetch, between);
  }
}

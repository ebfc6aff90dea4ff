/** The identity of events across fetches: one mapped event is trusted, several put all of them in conflict. */
module MarketEvents {
  import opened Wrappers
  import opened Lists

  datatype Review = Matched | NeedsReview | Conflict

  datatype Event = Event(
    league: string,
    home: string,
    away: string,
    start: int,
    status: string,
    review: Review,
    confidence: real)

  datatype ProviderKey = ProviderKey(provider: string, sport: string, id: string)

  datatype Mapping = Mapping(key: ProviderKey, eventId: nat, review: Review, confidence: real)

  /** The event tables, with the next identifier that the id factory will hand out. */
  datatype Catalog = Catalog(events: map<nat, Event>, mappings: seq<Mapping>, nextId: nat)

  datatype Quote = Quote(book: nat, market: string, side: string, pointKey: string, odds: int)

  /** An offer as the provider sent it. */
  datatype Offer = Offer(text: string)

  /** A game as the provider sent it: an absent id, team or status is the empty text, an unusable start is none. */
  datatype Game = Game(
    providerEventId: string,
    homeTeam: string,
    awayTeam: string,
    start: Option<int>,
    status: string,
    offers: seq<Offer>)

  datatype Fetch = Fetch(provider: string, sport: string, league: string, games: seq<Game>)

  /** Text handling taken from libraries: trimming, case folding, and reading an offer made for an event. */
  datatype Reader = Reader(strip: string -> string, fold: string -> string, quote: (Event, Offer) -> Option<Quote>)

  datatype ResolveError = MissingTeams | MissingStart

  datatype Resolved = Resolved(catalog: Catalog, eventId: nat, created: bool)

  // ----- Resolving one game -----

  predicate SameEvent(t: Reader, e: Event, league: string, home: string, away: string, start: int) {
    && e.league == league && e.start == start
    && t.fold(e.home) == t.fold(t.strip(home)) && t.fold(e.away) == t.fold(t.strip(away))
  }

  function ForKey(key: ProviderKey): Mapping -> bool {
    (m: Mapping) => m.key == key
  }

  function KeyOfGame(fetch: Fetch, game: Game): ProviderKey {
    ProviderKey(fetch.provider, fetch.sport, game.providerEventId)
  }

  function Candidates(c: Catalog, fetch: Fetch, game: Game): seq<Mapping> {
    if game.providerEventId == "" then [] else Where(c.mappings, ForKey(KeyOfGame(fetch, game)))
  }

  predicate IsSame(c: Catalog, t: Reader, m: Mapping, league: string, game: Game) {
    && game.start.Some? && m.eventId in c.events
    && SameEvent(t, c.events[m.eventId], league, game.homeTeam, game.awayTeam, game.start.value)
  }

  /** The first candidate that is the game's event. */
  function FirstSame(c: Catalog, t: Reader, candidates: seq<Mapping>, league: string, game: Game): Option<nat> {
    if candidates == [] then None
    else if IsSame(c, t, candidates[0], league, game) then Some(candidates[0].eventId)
    else FirstSame(c, t, candidates[1..], league, game)
  }

  function NewEvent(t: Reader, fetch: Fetch, game: Game, start: int, conflict: bool): Event {
    Event(fetch.league, t.strip(game.homeTeam), t.strip(game.awayTeam), start,
          if game.status == "" then "scheduled" else game.status,
          if conflict then Conflict else if game.providerEventId != "" then Matched else NeedsReview,
          if conflict then 0.0 else if game.providerEventId != "" then 1.0 else 0.5)
  }

  predicate Maps(mappings: seq<Mapping>, key: ProviderKey, id: nat) {
    exists m :: m in mappings && m.key == key && m.eventId == id
  }

  function Doubted(m: Mapping): Mapping {
    m.(review := Conflict, confidence := 0.0)
  }

  function DoubtMappings(mappings: seq<Mapping>, key: ProviderKey, n: nat): seq<Mapping> {
    seq(|mappings|, i requires 0 <= i < |mappings| => if i < n && mappings[i].key == key then Doubted(mappings[i]) else mappings[i])
  }

  function DoubtEvents(events: map<nat, Event>, mappings: seq<Mapping>, key: ProviderKey): map<nat, Event> {
    map id | id in events :: if Maps(mappings, key, id) then events[id].(review := Conflict, confidence := 0.0) else events[id]
  }

  /** Every mapping of a key, and every event it maps to, goes into conflict. */
  function Doubt(c: Catalog, key: ProviderKey): Catalog {
    c.(mappings := DoubtMappings(c.mappings, key, |c.mappings|), events := DoubtEvents(c.events, c.mappings, key))
  }

  /** Specification of resolving a game to a canonical event. */
  function Resolve(c: Catalog, t: Reader, fetch: Fetch, game: Game): Result<Resolved, ResolveError> {
    if game.homeTeam == "" || game.awayTeam == "" then Err(MissingTeams)
    else if game.start.None? then Err(MissingStart)
    else
      var candidates := Candidates(c, fetch, game);
      match FirstSame(c, t, candidates, fetch.league, game)
      case Some(id) =>
        var touched := if game.status != "" && id in c.events then c.(events := c.events[id := c.events[id].(status := game.status)]) else c;
        Ok(Resolved(touched, id, false))
      case None =>
        var conflict := candidates != [];
        var event := NewEvent(t, fetch, game, game.start.value, conflict);
        var key := KeyOfGame(fetch, game);
        var settled := if conflict then Doubt(c, key) else c;
        var mapping := if game.providerEventId == "" then [] else [Mapping(key, c.nextId, event.review, event.confidence)];
        Ok(Resolved(Catalog(settled.events[c.nextId := event], settled.mappings + mapping, c.nextId + 1), c.nextId, true))
  }

  // ----- What the catalog always satisfies -----

  /** Two events that the matching rule would take for one another. */
  predicate Alike(t: Reader, e: Event, f: Event) {
    e.league == f.league && e.start == f.start && t.fold(e.home) == t.fold(f.home) && t.fold(e.away) == t.fold(f.away)
  }

  ghost predicate Linked(c: Catalog) {
    && (forall id <- c.events :: id < c.nextId)
    && (forall m <- c.mappings :: m.eventId in c.events)
    && (forall i, j :: 0 <= i < j < |c.mappings| ==> c.mappings[i].eventId != c.mappings[j].eventId)
  }

  /** A key with one mapping trusts it; with several, every mapping and event of it is in conflict. */
  ghost predicate ReviewedFor(c: Catalog, key: ProviderKey) {
    var own := Where(c.mappings, ForKey(key));
    forall m <- own :: m.eventId in c.events
                       && m.review == (if |own| == 1 then Matched else Conflict) && c.events[m.eventId].review == m.review
  }

  ghost predicate ApartFor(c: Catalog, t: Reader, key: ProviderKey) {
    forall m, n :: m in c.mappings && n in c.mappings && m.key == key && n.key == key && m.eventId != n.eventId
                   && m.eventId in c.events && n.eventId in c.events
                   ==> !Alike(t, c.events[m.eventId], c.events[n.eventId])
  }

  ghost predicate Sound(c: Catalog, t: Reader) {
    Linked(c) && (forall key :: ReviewedFor(c, key)) && (forall key :: ApartFor(c, t, key))
  }

  lemma EmptyCatalogSound(t: Reader)
    ensures Sound(Catalog(map[], [], 0), t)
  {
  }

  lemma {:induction false} FirstSameIs(c: Catalog, t: Reader, candidates: seq<Mapping>, league: string, game: Game)
    ensures var r := FirstSame(c, t, candidates, league, game);
            match r
            case Some(id) => exists m :: m in candidates && m.eventId == id && IsSame(c, t, m, league, game)
            case None => forall m <- candidates :: !IsSame(c, t, m, league, game)
  {
    if candidates != [] {
      FirstSameIs(c, t, candidates[1..], league, game);
      assert candidates == [candidates[0]] + candidates[1..];
    }
  }

  /** Since mapped events are apart, at most one candidate is the game's event: the order of the query cannot matter. */
  lemma OneCandidateMatches(c: Catalog, t: Reader, fetch: Fetch, game: Game, m: Mapping, n: Mapping)
    requires Sound(c, t) && m in Candidates(c, fetch, game) && n in Candidates(c, fetch, game)
    requires IsSame(c, t, m, fetch.league, game) && IsSame(c, t, n, fetch.league, game)
    ensures m.eventId == n.eventId
  {
    assert ApartFor(c, t, KeyOfGame(fetch, game));
  }

  // ----- Resolving keeps it -----

  /** Doubting a key keeps the number of mappings of every key, and the mappings of every other. */
  lemma {:induction false} DoubtedCount(mappings: seq<Mapping>, key: ProviderKey, other: ProviderKey)
    ensures |Where(DoubtMappings(mappings, key, |mappings|), ForKey(other))| == |Where(mappings, ForKey(other))|
    ensures other != key ==> Where(DoubtMappings(mappings, key, |mappings|), ForKey(other)) == Where(mappings, ForKey(other))
  {
    if mappings != [] {
      DoubtedCount(mappings[1..], key, other);
      assert DoubtMappings(mappings, key, |mappings|)[1..] == DoubtMappings(mappings[1..], key, |mappings| - 1);
    }
  }

  /** Every mapping of a doubted key is in conflict, and names an event the key named before. */
  lemma DoubtedReviews(mappings: seq<Mapping>, key: ProviderKey, m: Mapping)
    requires m in Where(DoubtMappings(mappings, key, |mappings|), ForKey(key))
    ensures m.review == Conflict && exists n :: n in Where(mappings, ForKey(key)) && n.eventId == m.eventId
  {
    var i :| 0 <= i < |mappings| && DoubtMappings(mappings, key, |mappings|)[i] == m;
    assert mappings[i] in mappings && mappings[i] in Where(mappings, ForKey(key));
  }

  lemma TouchKeeps(c: Catalog, t: Reader, id: nat, status: string)
    requires Sound(c, t) && id in c.events
    ensures Sound(c.(events := c.events[id := c.events[id].(status := status)]), t)
  {
    hide Where;
    var after := c.(events := c.events[id := c.events[id].(status := status)]);
    forall key ensures ReviewedFor(after, key) { assert ReviewedFor(c, key); }
    forall key ensures ApartFor(after, t, key) { assert ApartFor(c, t, key); }
  }

  lemma DoubtLinks(c: Catalog, key: ProviderKey)
    requires Linked(c)
    ensures Linked(Doubt(c, key)) && Doubt(c, key).nextId == c.nextId
    ensures forall m <- Doubt(c, key).mappings :: exists n :: n in c.mappings && n.key == m.key && n.eventId == m.eventId
    ensures forall id <- c.events :: id in Doubt(c, key).events
                                     && Doubt(c, key).events[id] == c.events[id].(review := Doubt(c, key).events[id].review,
                                                                                    confidence := Doubt(c, key).events[id].confidence)
  {
    var d := Doubt(c, key);
    forall m | m in d.mappings ensures exists n :: n in c.mappings && n.key == m.key && n.eventId == m.eventId {
      var i :| 0 <= i < |d.mappings| && d.mappings[i] == m;
      assert c.mappings[i] in c.mappings;
    }
  }

  lemma DoubtKeepsApart(c: Catalog, t: Reader, key: ProviderKey, other: ProviderKey)
    requires Linked(c) && ApartFor(c, t, other)
    ensures ApartFor(Doubt(c, key), t, other)
  {
    DoubtLinks(c, key);
    hide Doubt, Where;
  }

  /** A mapping belongs to one key, so doubting a key leaves the events of the others alone. */
  lemma DoubtSparesOthers(c: Catalog, key: ProviderKey, m: Mapping)
    requires Linked(c) && m in c.mappings && m.key != key
    ensures Doubt(c, key).events[m.eventId] == c.events[m.eventId]
  {
    forall n | n in c.mappings && n.key == key ensures n.eventId != m.eventId {
      var i :| 0 <= i < |c.mappings| && c.mappings[i] == m;
      var j :| 0 <= j < |c.mappings| && c.mappings[j] == n;
    }
  }

  lemma DoubtReviews(c: Catalog, key: ProviderKey, other: ProviderKey, m: Mapping)
    requires Linked(c) && ReviewedFor(c, other) && m in Where(Doubt(c, key).mappings, ForKey(other))
    ensures m.eventId in Doubt(c, key).events && Doubt(c, key).events[m.eventId].review == m.review
    ensures other == key ==> m.review == Conflict
    ensures other != key ==> m in Where(c.mappings, ForKey(other))
  {
    if other == key {
      DoubtedReviews(c.mappings, key, m);
      var n :| n in Where(c.mappings, ForKey(key)) && n.eventId == m.eventId;
      assert Maps(c.mappings, key, m.eventId);
    } else {
      DoubtedCount(c.mappings, key, other);
      DoubtSparesOthers(c, key, m);
    }
  }

  lemma CreateReviews(c: Catalog, t: Reader, fetch: Fetch, game: Game, other: ProviderKey)
    requires Sound(c, t) && Resolve(c, t, fetch, game).Ok? && Resolve(c, t, fetch, game).value.created
    ensures ReviewedFor(Resolve(c, t, fetch, game).value.catalog, other)
  {
    hide Where, FirstSame, Doubt;
    var after := Resolve(c, t, fetch, game).value.catalog;
    var key, conflict := KeyOfGame(fetch, game), Candidates(c, fetch, game) != [];
    var settled := if conflict then Doubt(c, key) else c;
    var event := after.events[c.nextId];
    var mapping := Mapping(key, c.nextId, event.review, event.confidence);
    assert ReviewedFor(c, other);
    DoubtLinks(c, key);
    DoubtSizes(c, key, other);
    WhereAppend(settled.mappings, mapping, ForKey(other));
    if game.providerEventId == "" { assert settled.mappings + [] == settled.mappings; }
    forall m | m in Where(after.mappings, ForKey(other))
      ensures m.eventId in after.events && after.events[m.eventId].review == m.review
      ensures m.review == (if |Where(after.mappings, ForKey(other))| == 1 then Matched else Conflict)
    {
      if m in Where(settled.mappings, ForKey(other)) {
        assert m in settled.mappings && m.eventId < c.nextId;
        if conflict { DoubtReviews(c, key, other, m); }
      }
    }
  }

  lemma DoubtSizes(c: Catalog, key: ProviderKey, other: ProviderKey)
    ensures |Where(Doubt(c, key).mappings, ForKey(other))| == |Where(c.mappings, ForKey(other))|
  {
    DoubtedCount(c.mappings, key, other);
  }

  lemma CreateLinks(c: Catalog, t: Reader, fetch: Fetch, game: Game)
    requires Linked(c) && Resolve(c, t, fetch, game).Ok? && Resolve(c, t, fetch, game).value.created
    ensures Linked(Resolve(c, t, fetch, game).value.catalog)
  {
    hide Where, FirstSame, Doubt;
    var after := Resolve(c, t, fetch, game).value.catalog;
    DoubtLinks(c, KeyOfGame(fetch, game));
    var settled := if Candidates(c, fetch, game) != [] then Doubt(c, KeyOfGame(fetch, game)) else c;
    forall i, j | 0 <= i < j < |after.mappings| ensures after.mappings[i].eventId != after.mappings[j].eventId {
      assert settled.mappings[i] in settled.mappings;
    }
    forall m | m in after.mappings ensures m.eventId in after.events {
      if m !in settled.mappings { assert m.eventId == c.nextId; }
    }
  }

  lemma CreateParts(c: Catalog, t: Reader, fetch: Fetch, game: Game)
    requires Sound(c, t) && Resolve(c, t, fetch, game).Ok? && Resolve(c, t, fetch, game).value.created
    ensures forall key :: ApartFor(Resolve(c, t, fetch, game).value.catalog, t, key)
  {
    hide Where, FirstSame, Doubt;
    var after := Resolve(c, t, fetch, game).value.catalog;
    var key, conflict := KeyOfGame(fetch, game), Candidates(c, fetch, game) != [];
    var settled := if conflict then Doubt(c, key) else c;
    DoubtLinks(c, key);
    FirstSameIs(c, t, Candidates(c, fetch, game), fetch.league, game);
    forall other ensures ApartFor(after, t, other) {
      assert ApartFor(c, t, other);
      if conflict { DoubtKeepsApart(c, t, key, other); }
      forall m, n | m in after.mappings && n in after.mappings && m.key == other && n.key == other && m.eventId != n.eventId
        ensures !Alike(t, after.events[m.eventId], after.events[n.eventId])
      {
        if m.eventId == c.nextId {
          NewEventApart(c, t, fetch, game, settled, n);
        } else if n.eventId == c.nextId {
          NewEventApart(c, t, fetch, game, settled, m);
        } else {
          assert m in settled.mappings && n in settled.mappings;
        }
      }
    }
  }

  lemma NewEventApart(c: Catalog, t: Reader, fetch: Fetch, game: Game, settled: Catalog, n: Mapping)
    requires Linked(c) && game.start.Some? && game.providerEventId != ""
    requires settled == (if Candidates(c, fetch, game) != [] then Doubt(c, KeyOfGame(fetch, game)) else c)
    requires n in settled.mappings && n.key == KeyOfGame(fetch, game) && n.eventId in settled.events
    requires forall m <- Candidates(c, fetch, game) :: !IsSame(c, t, m, fetch.league, game)
    ensures forall conflict :: !Alike(t, settled.events[n.eventId], NewEvent(t, fetch, game, game.start.value, conflict))
                               && !Alike(t, NewEvent(t, fetch, game, game.start.value, conflict), settled.events[n.eventId])
  {
    DoubtLinks(c, KeyOfGame(fetch, game));
    hide Doubt;
    var m :| m in c.mappings && m.key == n.key && m.eventId == n.eventId;
    assert m in Candidates(c, fetch, game);
    assert !IsSame(c, t, m, fetch.league, game);
  }

  lemma ResolveKeeps(c: Catalog, t: Reader, fetch: Fetch, game: Game)
    requires Sound(c, t) && Resolve(c, t, fetch, game).Ok?
    ensures Sound(Resolve(c, t, fetch, game).value.catalog, t)
    ensures Resolve(c, t, fetch, game).value.eventId in Resolve(c, t, fetch, game).value.catalog.events
  {
    hide Where, Doubt;
    var r := Resolve(c, t, fetch, game).value;
    FirstSameIs(c, t, Candidates(c, fetch, game), fetch.league, game);
    if r.created {
      hide Resolve;
      CreateLinks(c, t, fetch, game);
      CreateParts(c, t, fetch, game);
      forall key ensures ReviewedFor(r.catalog, key) { CreateReviews(c, t, fetch, game, key); }
      assert r.eventId in r.catalog.events by { CreatedExists(c, t, fetch, game); }
    } else if game.status != "" {
      TouchKeeps(c, t, r.eventId, game.status);
    }
  }

  lemma CreatedExists(c: Catalog, t: Reader, fetch: Fetch, game: Game)
    requires Resolve(c, t, fetch, game).Ok? && Resolve(c, t, fetch, game).value.created
    ensures Resolve(c, t, fetch, game).value.eventId in Resolve(c, t, fetch, game).value.catalog.events
  {
    hide Where, Doubt, FirstSame;
  }

  // ----- Over any sequence of games and fetches -----

  function ResolveAll(c: Catalog, t: Reader, fetch: Fetch, games: seq<Game>): Catalog {
    if games == [] then c
    else
      var before := ResolveAll(c, t, fetch, games[..|games| - 1]);
      match Resolve(before, t, fetch, games[|games| - 1])
      case Ok(r) => r.catalog
      case Err(_) => before
  }

  function AfterFetches(c: Catalog, t: Reader, fetches: seq<Fetch>): Catalog {
    if fetches == [] then c
    else
      var last := fetches[|fetches| - 1];
      ResolveAll(AfterFetches(c, t, fetches[..|fetches| - 1]), t, last, last.games)
  }

  /** The key already leads to an event that the game would be matched to. */
  ghost predicate Known(c: Catalog, t: Reader, fetch: Fetch, game: Game) {
    exists m :: m in Candidates(c, fetch, game) && IsSame(c, t, m, fetch.league, game)
  }

  /** What a later catalog keeps of an earlier one: no event changes its identity, no mapping goes away. */
  ghost predicate Grows(c: Catalog, after: Catalog, t: Reader) {
    && (forall id <- c.events :: id in after.events && Alike(t, after.events[id], c.events[id]))
    && (forall m <- c.mappings :: Maps(after.mappings, m.key, m.eventId))
    && (forall key :: |Where(after.mappings, ForKey(key))| >= |Where(c.mappings, ForKey(key))|)
  }

  lemma GrowsTrans(a: Catalog, b: Catalog, c: Catalog, t: Reader)
    requires Grows(a, b, t) && Grows(b, c, t)
    ensures Grows(a, c, t)
  {
    hide Where;
    forall m | m in a.mappings ensures Maps(c.mappings, m.key, m.eventId) {
      assert Maps(b.mappings, m.key, m.eventId);
      var n :| n in b.mappings && n.key == m.key && n.eventId == m.eventId;
    }
  }

  lemma GrowsRefl(c: Catalog, t: Reader)
    ensures Grows(c, c, t)
  {
  }

  lemma DoubtGrows(c: Catalog, t: Reader, key: ProviderKey)
    requires Linked(c)
    ensures Grows(c, Doubt(c, key), t)
  {
    DoubtLinks(c, key);
    forall other ensures |Where(Doubt(c, key).mappings, ForKey(other))| == |Where(c.mappings, ForKey(other))| { DoubtSizes(c, key, other); }
    forall m | m in c.mappings ensures Maps(Doubt(c, key).mappings, m.key, m.eventId) {
      var i :| 0 <= i < |c.mappings| && c.mappings[i] == m;
      assert Doubt(c, key).mappings[i] in Doubt(c, key).mappings;
    }
    hide Where, Doubt;
  }

  lemma AddedGrows(c: Catalog, t: Reader, event: Event, added: seq<Mapping>)
    requires Linked(c)
    ensures Grows(c, Catalog(c.events[c.nextId := event], c.mappings + added, c.nextId + 1), t)
  {
    var after := Catalog(c.events[c.nextId := event], c.mappings + added, c.nextId + 1);
    forall key ensures |Where(after.mappings, ForKey(key))| >= |Where(c.mappings, ForKey(key))| {
      WhereConcat(c.mappings, added, ForKey(key));
    }
    forall m | m in c.mappings ensures Maps(after.mappings, m.key, m.eventId) { assert m in after.mappings; }
    hide Where;
  }

  lemma ResolveGrows(c: Catalog, t: Reader, fetch: Fetch, game: Game)
    requires Sound(c, t) && Resolve(c, t, fetch, game).Ok?
    ensures Grows(c, Resolve(c, t, fetch, game).value.catalog, t)
  {
    hide Where, Doubt, FirstSame, Grows, ReviewedFor, ApartFor;
    var r := Resolve(c, t, fetch, game).value;
    if r.created {
      var conflict, key := Candidates(c, fetch, game) != [], KeyOfGame(fetch, game);
      var settled := if conflict then Doubt(c, key) else c;
      var event := NewEvent(t, fetch, game, game.start.value, conflict);
      var added := if game.providerEventId == "" then [] else [Mapping(key, c.nextId, event.review, event.confidence)];
      DoubtLinks(c, key);
      DoubtGrows(c, t, key);
      GrowsRefl(c, t);
      AddedGrows(settled, t, event, added);
      GrowsTrans(c, settled, r.catalog, t);
    } else {
      TouchGrows(c, t, r.eventId, game.status);
      GrowsRefl(c, t);
    }
  }

  lemma TouchGrows(c: Catalog, t: Reader, id: nat, status: string)
    ensures id in c.events ==> Grows(c, c.(events := c.events[id := c.events[id].(status := status)]), t)
  {
  }

  lemma {:induction false} GamesKeep(c: Catalog, t: Reader, fetch: Fetch, games: seq<Game>)
    requires Sound(c, t)
    ensures Sound(ResolveAll(c, t, fetch, games), t) && Grows(c, ResolveAll(c, t, fetch, games), t)
  {
    hide Resolve, Sound, Grows;
    if games == [] {
      GrowsRefl(c, t);
    } else {
      var front := games[..|games| - 1];
      GamesKeep(c, t, fetch, front);
      var before := ResolveAll(c, t, fetch, front);
      if Resolve(before, t, fetch, games[|games| - 1]).Ok? {
        ResolveKeeps(before, t, fetch, games[|games| - 1]);
        ResolveGrows(before, t, fetch, games[|games| - 1]);
        GrowsTrans(c, before, ResolveAll(c, t, fetch, games), t);
      }
    }
  }

  /** Over any sequence of fetches: one mapped event is matched, several are all in conflict, and the events mapped for
      one id are pairwise distinct. */
  lemma {:induction false} FetchesKeep(c: Catalog, t: Reader, fetches: seq<Fetch>)
    requires Sound(c, t)
    ensures Sound(AfterFetches(c, t, fetches), t) && Grows(c, AfterFetches(c, t, fetches), t)
  {
    hide ResolveAll, Sound, Grows;
    if fetches == [] {
      GrowsRefl(c, t);
    } else {
      var front, last := fetches[..|fetches| - 1], fetches[|fetches| - 1];
      FetchesKeep(c, t, front);
      GamesKeep(AfterFetches(c, t, front), t, last, last.games);
      GrowsTrans(c, AfterFetches(c, t, front), AfterFetches(c, t, fetches), t);
    }
  }

  /** Once a provider event id has several events, all of them and their mappings are in conflict after any fetches. */
  lemma ConflictIsForever(c: Catalog, t: Reader, fetches: seq<Fetch>, key: ProviderKey)
    requires Sound(c, t) && |Where(c.mappings, ForKey(key))| >= 2
    ensures var after := AfterFetches(c, t, fetches);
            && |Where(after.mappings, ForKey(key))| >= 2
            && forall m <- after.mappings :: m.key == key
                 ==> m.eventId in after.events && m.review == Conflict && after.events[m.eventId].review == Conflict
  {
    hide AfterFetches, ApartFor;
    FetchesKeep(c, t, fetches);
    var after := AfterFetches(c, t, fetches);
    assert ReviewedFor(after, key);
    forall m | m in after.mappings && m.key == key
      ensures m.eventId in after.events && m.review == Conflict && after.events[m.eventId].review == Conflict
    {
      assert m in Where(after.mappings, ForKey(key));
    }
  }

  predicate Usable(game: Game) {
    game.homeTeam != "" && game.awayTeam != "" && game.start.Some? && game.providerEventId != ""
  }

  lemma ResolvedIsKnown(c: Catalog, t: Reader, fetch: Fetch, game: Game)
    requires Sound(c, t) && Usable(game)
    ensures Resolve(c, t, fetch, game).Ok? && Known(Resolve(c, t, fetch, game).value.catalog, t, fetch, game)
  {
    hide Where, Doubt, ReviewedFor, ApartFor;
    FirstSameIs(c, t, Candidates(c, fetch, game), fetch.league, game);
    var r := Resolve(c, t, fetch, game).value;
    var key := KeyOfGame(fetch, game);
    if r.created {
      var event := r.catalog.events[c.nextId];
      var mapping := Mapping(key, c.nextId, event.review, event.confidence);
      assert mapping in r.catalog.mappings;
      assert mapping in Candidates(r.catalog, fetch, game);
      assert IsSame(r.catalog, t, mapping, fetch.league, game);
    } else {
      var m :| m in Candidates(c, fetch, game) && m.eventId == r.eventId && IsSame(c, t, m, fetch.league, game);
      assert m in Candidates(r.catalog, fetch, game) && IsSame(r.catalog, t, m, fetch.league, game);
    }
  }

  lemma KnownStays(c: Catalog, after: Catalog, t: Reader, fetch: Fetch, game: Game)
    requires Linked(c) && Known(c, t, fetch, game) && Grows(c, after, t)
    ensures Known(after, t, fetch, game)
  {
    hide Where;
    var m :| m in Candidates(c, fetch, game) && IsSame(c, t, m, fetch.league, game);
    assert m in c.mappings && Maps(after.mappings, m.key, m.eventId);
    var n :| n in after.mappings && n.key == m.key && n.eventId == m.eventId;
    assert n in Candidates(after, fetch, game);
    assert Alike(t, after.events[m.eventId], c.events[m.eventId]);
    assert IsSame(after, t, n, fetch.league, game);
  }

  /** A game that is known resolves to an existing event: no event and no mapping is created. */
  lemma KnownCreatesNothing(c: Catalog, t: Reader, fetch: Fetch, game: Game)
    requires Linked(c) && Usable(game) && Known(c, t, fetch, game)
    ensures Resolve(c, t, fetch, game).Ok?
    ensures var r := Resolve(c, t, fetch, game).value;
            !r.created && r.catalog.events.Keys == c.events.Keys && r.catalog.mappings == c.mappings && r.catalog.nextId == c.nextId
  {
    hide Where, Doubt;
    FirstSameIs(c, t, Candidates(c, fetch, game), fetch.league, game);
  }

  lemma {:induction false} GameOfFetchIsKnown(c: Catalog, t: Reader, fetch: Fetch, games: seq<Game>, game: Game)
    requires Sound(c, t) && game in games && Usable(game)
    ensures Known(ResolveAll(c, t, fetch, games), t, fetch, game)
  {
    hide Resolve, Known, ReviewedFor, ApartFor, Grows;
    var front, last := games[..|games| - 1], games[|games| - 1];
    GamesKeep(c, t, fetch, front);
    var before := ResolveAll(c, t, fetch, front);
    if game == last {
      ResolvedIsKnown(before, t, fetch, last);
    } else {
      assert games == front + [last];
      GameOfFetchIsKnown(c, t, fetch, front, game);
      if Resolve(before, t, fetch, last).Ok? {
        ResolveGrows(before, t, fetch, last);
        KnownStays(before, ResolveAll(c, t, fetch, games), t, fetch, game);
      }
    }
  }

  lemma {:induction false} KnownGamesCreateNothing(c: Catalog, t: Reader, fetch: Fetch, games: seq<Game>)
    requires Sound(c, t) && forall g <- games :: Usable(g) && Known(c, t, fetch, g)
    ensures var after := ResolveAll(c, t, fetch, games);
            after.events.Keys == c.events.Keys && after.mappings == c.mappings && after.nextId == c.nextId
  {
    hide Resolve, Known, ReviewedFor, ApartFor, Grows;
    if games != [] {
      var front, last := games[..|games| - 1], games[|games| - 1];
      assert last in games && forall g <- front :: g in games;
      KnownGamesCreateNothing(c, t, fetch, front);
      GamesKeep(c, t, fetch, front);
      KnownStays(c, ResolveAll(c, t, fetch, front), t, fetch, last);
      KnownCreatesNothing(ResolveAll(c, t, fetch, front), t, fetch, last);
    }
  }

  /** Ingesting a fetch of usable games again, after any other fetches, creates no event and no mapping. */
  lemma ReingestCreatesNothing(c: Catalog, t: Reader, fetch: Fetch, between: seq<Fetch>)
    requires Sound(c, t) && forall g <- fetch.games :: Usable(g)
    ensures var once := AfterFetches(ResolveAll(c, t, fetch, fetch.games), t, between);
            var again := ResolveAll(once, t, fetch, fetch.games);
            again.events.Keys == once.events.Keys && again.mappings == once.mappings && again.nextId == once.nextId
  {
    hide ResolveAll, AfterFetches, Known, Grows;
    GamesKeep(c, t, fetch, fetch.games);
    var first := ResolveAll(c, t, fetch, fetch.games);
    FetchesKeep(first, t, between);
    var once := AfterFetches(first, t, between);
    forall g | g in fetch.games ensures Known(once, t, fetch, g) {
      GameOfFetchIsKnown(c, t, fetch, fetch.games, g);
      KnownStays(first, once, t, fetch, g);
    }
    KnownGamesCreateNothing(once, t, fetch, fetch.games);
  }
}

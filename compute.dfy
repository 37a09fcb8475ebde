/**
 * The compute transition of a session: guard the request, mark the session `computing`,
 * run the midpoint, venue search, review analysis and enrichment stages (each falling back
 * on its own failure), store one venue row per venue found, and finish in `voting`; a
 * failure while storing resets the session to `ready_to_compute`.
 */
module Compute {
  import opened Wrappers
  import opened Models
  import opened LlmReply
  import opened Places
  import RA = ReviewAnalysis
  import VE = VenueEnrichment

  /** Sessions expire a day after creation. */
  const SessionTtl: int := 24 * 60 * 60

  /** The warning stored when the public-transport midpoint solver fails. */
  const FallbackWarning: string := "Could not compute public transport times. Using geographic midpoint."

  /** The response of the endpoint: an error kind, or success. */
  datatype ComputeOutcome = NotFound | Expired | NotReady | MissingB | Computed | Failed

  /**
   * The guards applied to a found session, in order: expired (older than the TTL), not ready,
   * user B's location missing; `None` when the computation may start.
   */
  function Check(createdAt: int, status: Status, userBLat: Option<real>, userBLng: Option<real>, now: int)
    : (r: Option<ComputeOutcome>)
    ensures r == Some(Expired) <==> now - createdAt > SessionTtl
    ensures r == Some(NotReady) <==> now - createdAt <= SessionTtl && status != ReadyToCompute
    ensures r == Some(MissingB) <==> now - createdAt <= SessionTtl && status == ReadyToCompute
                                     && (userBLat.None? || userBLng.None?)
    ensures r.None? <==> now - createdAt <= SessionTtl && status == ReadyToCompute && userBLat.Some? && userBLng.Some?
    ensures r.Some? ==> r.value == Expired || r.value == NotReady || r.value == MissingB
  {
    if now - createdAt > SessionTtl then Some(Expired)
    else if status != ReadyToCompute then Some(NotReady)
    else if userBLat.None? || userBLng.None? then Some(MissingB)
    else None
  }

  /** A session exactly one TTL old is not expired. */
  lemma ExactTtlNotExpired(createdAt: int, status: Status, userBLat: Option<real>, userBLng: Option<real>, now: int)
    requires now - createdAt == SessionTtl
    ensures Check(createdAt, status, userBLat, userBLng, now) != Some(Expired)
    ensures status == ReadyToCompute && userBLat.Some? && userBLng.Some? ==> Check(createdAt, status, userBLat, userBLng, now).None?
  {
  }

  /** What the midpoint stage settles on: the point, both travel times and the warning. */
  datatype MidpointResult = MidpointResult(midpoint: Coord, travelTimeA: Option<int>, travelTimeB: Option<int>, warning: Option<string>)

  /** The solver's result, or the geographic midpoint with no travel times and the fallback warning if it raised. */
  function ChooseMidpoint(geographic: Coord, solved: Option<MidpointResult>): (r: MidpointResult)
    ensures solved.None? ==> r.midpoint == geographic && r.travelTimeA.None? && r.travelTimeB.None?
                             && r.warning == Some(FallbackWarning)
    ensures solved.Some? ==> r == solved.value
  {
    match solved
    case None => MidpointResult(geographic, None, None, Some(FallbackWarning))
    case Some(m) => m
  }

  /**
   * Everything outside this module that the transition consults: the geographic midpoint of the
   * two users, the solver's result (`None` if it raised), the place search, the score's logarithm,
   * the API key, the two model endpoints and JSON parsers, and the id generator (by row number).
   */
  datatype Providers = Providers(
    geographicMidpoint: Coord,
    solver: Option<MidpointResult>,
    search: Searcher,
    log10: int -> real,
    apiKey: string,
    analysisLlm: (seq<RA.ReviewEntry>, nat) -> Reply,
    analysisParse: string -> Option<seq<RA.AnalysisItem>>,
    enrichLlm: (seq<VE.EnrichmentRequest>, nat) -> Reply,
    enrichParse: string -> Option<seq<VE.EnrichmentItem>>,
    newId: nat -> string)

  /** `json.dumps(xs) if xs else None`, with the JSON text represented by the list. */
  function NonEmpty<T>(xs: seq<T>): (r: Option<seq<T>>)
    ensures r.None? <==> xs == []
    ensures r.Some? ==> r.value == xs
  {
    if xs != [] then Some(xs) else None
  }

  /** `json.dumps(m) if m else None`, for the sentiment object. */
  function NonEmptyMap(m: map<string, real>): (r: Option<map<string, real>>)
    ensures r.None? <==> m == map[]
    ensures r.Some? ==> r.value == m
  {
    if m != map[] then Some(m) else None
  }

  /** `d.get(k)`. */
  function Lookup<V>(d: map<string, V>, k: string): (r: Option<V>)
    ensures r.Some? <==> k in d
    ensures r.Some? ==> r.value == d[k]
  {
    if k in d then Some(d[k]) else None
  }

  /** A list column: null exactly when the value is missing or empty, otherwise that list. */
  predicate ListColumn(column: Option<seq<string>>, value: Option<seq<string>>) {
    && (column.None? <==> value.None? || value.value == [])
    && (column.Some? ==> column == value)
  }

  /**
   * The row stored for one venue found, or `None` when the venue has no location (reading
   * `venue["location"]` raises). An enrichment or analysis that exists is a non-empty object,
   * so it is truthy; list- and object-valued columns are null when empty.
   */
  function RowFor(v: Place, sessionId: string, id: string, analysis: Option<RA.Analysis>, enrichment: Option<VE.Enrichment>)
    : (r: Option<VenueRow>)
    ensures r.Some? <==> v.location.Some?
    ensures r.Some? ==> && r.value.id == id && r.value.sessionId == sessionId
                        && r.value.googlePlaceId == v.id.GetOr("")
                        && r.value.name == v.displayName.GetOr("")
                        && r.value.address == v.formattedAddress
                        && r.value.lat == v.location.value.lat && r.value.lng == v.location.value.lng
                        && r.value.rating == RatingOrZero(v) && r.value.userRatingCount == CountOrZero(v)
                        && r.value.priceLevel == v.priceLevel && r.value.googleMapsUri == v.googleMapsUri
                        && ListColumn(r.value.types, Some(v.types))
                        && r.value.editorialSummary == v.editorialSummary
    ensures r.Some? ==> && (r.value.rawReviewsCache.None? <==> v.reviews == [])
                        && (r.value.rawReviewsCache.Some? ==> r.value.rawReviewsCache.value == RA.TopOf(v.reviews))
    ensures r.Some? && enrichment.None? ==>
              r.value.description.None? && r.value.cuisineTags.None? && r.value.vibeTags.None?
              && r.value.bestFor.None? && r.value.signatureDish.None?
    ensures r.Some? && enrichment.Some? ==>
              && r.value.description == enrichment.value.description
              && r.value.signatureDish == enrichment.value.signatureDish
              && ListColumn(r.value.cuisineTags, enrichment.value.cuisineTags)
              && ListColumn(r.value.vibeTags, enrichment.value.vibeTags)
              && ListColumn(r.value.bestFor, enrichment.value.bestFor)
    ensures r.Some? && analysis.None? ==>
              r.value.reviewSentiment.None? && r.value.standoutDishes.None?
              && r.value.reviewSummary.None? && r.value.reviewHighlights.None?
    ensures r.Some? && analysis.Some? ==>
              && (r.value.reviewSentiment.None? <==> analysis.value.sentiment == map[])
              && (r.value.reviewSentiment.Some? ==> r.value.reviewSentiment.value == analysis.value.sentiment)
              && ListColumn(r.value.standoutDishes, Some(analysis.value.standoutDishes))
              && r.value.reviewSummary == analysis.value.reviewSummary
              && ListColumn(r.value.reviewHighlights, Some(analysis.value.highlights))
  {
    match v.location
    case None => None
    case Some(loc) =>
      Some(VenueRow(
        id := id,
        sessionId := sessionId,
        googlePlaceId := v.id.GetOr(""),
        name := v.displayName.GetOr(""),
        address := v.formattedAddress,
        lat := loc.lat,
        lng := loc.lng,
        rating := RatingOrZero(v),
        userRatingCount := CountOrZero(v),
        priceLevel := v.priceLevel,
        googleMapsUri := v.googleMapsUri,
        types := NonEmpty(v.types),
        description := if enrichment.Some? then enrichment.value.description else None,
        cuisineTags := if enrichment.Some? then NonEmpty(enrichment.value.cuisineTags.GetOr([])) else None,
        vibeTags := if enrichment.Some? then NonEmpty(enrichment.value.vibeTags.GetOr([])) else None,
        bestFor := if enrichment.Some? then NonEmpty(enrichment.value.bestFor.GetOr([])) else None,
        signatureDish := if enrichment.Some? then enrichment.value.signatureDish else None,
        reviewSentiment := if analysis.Some? then NonEmptyMap(analysis.value.sentiment) else None,
        standoutDishes := if analysis.Some? then NonEmpty(analysis.value.standoutDishes) else None,
        reviewSummary := if analysis.Some? then analysis.value.reviewSummary else None,
        reviewHighlights := if analysis.Some? then NonEmpty(analysis.value.highlights) else None,
        editorialSummary := v.editorialSummary,
        rawReviewsCache := NonEmpty(RA.TopOf(v.reviews))))
  }

  /** The row for the `i`-th venue, with its name's analysis and enrichment looked up. */
  function RowAt(venues: seq<Place>, i: nat, sessionId: string, newId: nat -> string,
                 analyses: map<string, RA.Analysis>, enrichments: map<string, VE.Enrichment>): Option<VenueRow>
    requires i < |venues|
  {
    var name := venues[i].displayName.GetOr("");
    RowFor(venues[i], sessionId, newId(i), Lookup(analyses, name), Lookup(enrichments, name))
  }

  /** The rows added by the storing loop, and whether it raised. */
  datatype Rows = Rows(rows: seq<VenueRow>, failed: bool)

  /**
   * The storing loop over `venues`: one row per venue, in order, until the first venue without a
   * location, where it raises; the rows added before that stay pending in the database session.
   */
  function BuildRows(venues: seq<Place>, sessionId: string, newId: nat -> string,
                     analyses: map<string, RA.Analysis>, enrichments: map<string, VE.Enrichment>): (r: Rows)
    ensures |r.rows| <= |venues|
    ensures r.failed <==> exists i :: 0 <= i < |venues| && venues[i].location.None?
    ensures !r.failed ==> |r.rows| == |venues|
    ensures r.failed ==> |r.rows| < |venues| && venues[|r.rows|].location.None?
    ensures forall i :: 0 <= i < |r.rows| ==>
              venues[i].location.Some? && Some(r.rows[i]) == RowAt(venues, i, sessionId, newId, analyses, enrichments)
  {
    if venues == [] then Rows([], false)
    else
      var n := |venues| - 1;
      var init := venues[..n];
      var p := BuildRows(init, sessionId, newId, analyses, enrichments);
      assert forall i :: 0 <= i < n ==> init[i] == venues[i];
      assert forall i :: 0 <= i < n ==> RowAt(init, i, sessionId, newId, analyses, enrichments)
                                        == RowAt(venues, i, sessionId, newId, analyses, enrichments);
      if p.failed then p
      else
        match RowAt(venues, n, sessionId, newId, analyses, enrichments)
        case None => Rows(p.rows, true)
        case Some(row) => Rows(p.rows + [row], false)
  }

  /** What the stages produce after the guards pass. */
  datatype Plan = Plan(midpoint: MidpointResult, raw: seq<Place>, stored: Rows)

  /**
   * The stages after the guards: the midpoint (with its fallback), the venue search (an empty
   * list if it raised), review analysis and enrichment of the venues found, and the rows.
   */
  function PlanFor(p: Providers, sessionId: string): Plan {
    var mp := ChooseMidpoint(p.geographicMidpoint, p.solver);
    var raw := Resolve(mp.midpoint, p.search, p.log10).venues.GetOr([]);
    var analyses := RA.AnalyzeSpec(raw, p.apiKey, p.analysisLlm, p.analysisParse).analyses;
    var enrichments := VE.EnrichSpec(raw, p.apiKey, p.enrichLlm, p.enrichParse).enrichments;
    Plan(mp, raw, BuildRows(raw, sessionId, p.newId, analyses, enrichments))
  }

  /** The session row after a successful run: `voting`, with the midpoint, travel times and warning. */
  function Completed(before: SessionRecord, mp: MidpointResult, now: int): SessionRecord {
    before.(status := Voting, midpointLat := Some(mp.midpoint.lat), midpointLng := Some(mp.midpoint.lng),
            userATravelTime := mp.travelTimeA, userBTravelTime := mp.travelTimeB, warning := mp.warning,
            updatedAt := now)
  }

  /** The session row after a failed run: back to `ready_to_compute`, nothing else but the time changed. */
  function Reset(before: SessionRecord, now: int): SessionRecord {
    before.(status := ReadyToCompute, updatedAt := now)
  }

  /**
   * The three reads of `int(time.time())` in one request: for the expiry check, when the session
   * is marked `computing`, and when it is finally committed (as `voting`, or reset).
   */
  datatype Clock = Clock(checkedAt: int, startedAt: int, finishedAt: int)

  /**
   * The database the endpoint works on: the sessions by id, the venue rows in insertion order,
   * and (for the proofs) the session rows committed so far, in commit order.
   */
  class Database {
    var sessions: map<string, Session>
    var venues: seq<VenueRow>
    ghost var commits: seq<SessionRecord>

    constructor (sessions: map<string, Session>, venues: seq<VenueRow>)
      ensures this.sessions == sessions && this.venues == venues && this.commits == []
    {
      this.sessions := sessions;
      this.venues := venues;
      this.commits := [];
    }
  }

  /**
   * The storing loop of `compute_midpoint`: `db.add` one row per venue until a venue without a
   * location raises; `failed` says whether it did.
   */
  method StoreRows(db: Database, rawVenues: seq<Place>, sessionId: string, newId: nat -> string,
                   reviewAnalyses: map<string, RA.Analysis>, enrichments: map<string, VE.Enrichment>)
    returns (failed: bool)
    modifies db`venues
    ensures var r := BuildRows(rawVenues, sessionId, newId, reviewAnalyses, enrichments);
      db.venues == old(db.venues) + r.rows && failed == r.failed
  {
    ghost var added: seq<VenueRow> := [];
    for i := 0 to |rawVenues|
      invariant db.venues == old(db.venues) + added
      invariant BuildRows(rawVenues[..i], sessionId, newId, reviewAnalyses, enrichments) == Rows(added, false)
    {
      var venue := rawVenues[i];
      var name := venue.displayName.GetOr("");
      var row := RowFor(venue, sessionId, newId(i), Lookup(reviewAnalyses, name), Lookup(enrichments, name));
      assert rawVenues[..i + 1][..i] == rawVenues[..i];
      assert RowAt(rawVenues[..i + 1], i, sessionId, newId, reviewAnalyses, enrichments) == row;
      if row.None? {
        RowsFailurePersists(rawVenues, i, sessionId, newId, reviewAnalyses, enrichments);
        return true;
      }
      db.venues := db.venues + [row.value];
      added := added + [row.value];
    }
    assert rawVenues[..|rawVenues|] == rawVenues;
    failed := false;
  }

  /** The session marked `computing` and committed before the stages run. */
  method MarkComputing(db: Database, session: Session, now: int)
    modifies session, db`commits
    ensures session.Snapshot() == old(session.Snapshot()).(status := Computing, updatedAt := now)
    ensures db.commits == old(db.commits) + [session.Snapshot()]
  {
    session.status := Computing;
    session.updatedAt := now;
    db.commits := db.commits + [session.Snapshot()];
  }

  /** The session committed as `voting` with the stage results. */
  method MarkCompleted(db: Database, session: Session, mp: MidpointResult, now: int)
    modifies session, db`commits
    ensures session.Snapshot() == Completed(old(session.Snapshot()), mp, now)
    ensures db.commits == old(db.commits) + [session.Snapshot()]
  {
    session.midpointLat := Some(mp.midpoint.lat);
    session.midpointLng := Some(mp.midpoint.lng);
    session.userATravelTime := mp.travelTimeA;
    session.userBTravelTime := mp.travelTimeB;
    session.warning := mp.warning;
    session.status := Voting;
    session.updatedAt := now;
    db.commits := db.commits + [session.Snapshot()];
  }

  /** The session reset to `ready_to_compute` and committed after a failure. */
  method MarkReset(db: Database, session: Session, now: int)
    modifies session, db`commits
    ensures session.Snapshot() == Reset(old(session.Snapshot()), now)
    ensures db.commits == old(db.commits) + [session.Snapshot()]
  {
    session.status := ReadyToCompute;
    session.updatedAt := now;
    db.commits := db.commits + [session.Snapshot()];
  }

  /**
   * Stages 1 to 4 of `compute_midpoint`: the midpoint (or the geographic fallback), the venue
   * search (an empty list if it raised), and the review analyses and enrichments of the venues.
   */
  method RunSearchStages(p: Providers, sessionId: string)
    returns (midpoint: MidpointResult, rawVenues: seq<Place>,
             reviewAnalyses: map<string, RA.Analysis>, enrichments: map<string, VE.Enrichment>)
    ensures var plan := PlanFor(p, sessionId);
      && midpoint == plan.midpoint && rawVenues == plan.raw
      && reviewAnalyses == RA.AnalyzeSpec(rawVenues, p.apiKey, p.analysisLlm, p.analysisParse).analyses
      && enrichments == VE.EnrichSpec(rawVenues, p.apiKey, p.enrichLlm, p.enrichParse).enrichments
      && BuildRows(rawVenues, sessionId, p.newId, reviewAnalyses, enrichments) == plan.stored
  {
    // Stage 1: the midpoint, or the geographic fallback.
    midpoint := ChooseMidpoint(p.geographicMidpoint, p.solver);

    // Stage 2: the venue search; a raised search leaves the list empty.
    var found, _ := SearchVenues(midpoint.midpoint, p.search, p.log10);
    rawVenues := found.GetOr([]);

    // Stages 3 and 4: review analysis and enrichment.
    var analysisCalls;
    reviewAnalyses, analysisCalls := RA.AnalyzeReviews(rawVenues, p.apiKey, p.analysisLlm, p.analysisParse);
    var enrichmentCalls;
    enrichments, enrichmentCalls := VE.EnrichVenues(rawVenues, p.apiKey, p.enrichLlm, p.enrichParse);
  }

  /** The session row as committed when it is marked `computing`. */
  function Marked(before: SessionRecord, now: int): SessionRecord {
    before.(status := Computing, updatedAt := now)
  }

  /**
   * The stages after the guards, on the found session: commit it as `computing`, run the stages,
   * store the rows, and commit it as `voting`, or reset it to `ready_to_compute` if storing raised.
   */
  method RunStages(db: Database, session: Session, sessionId: string, clock: Clock, p: Providers)
    returns (outcome: ComputeOutcome)
    modifies db`venues, db`commits, session
    ensures var plan := PlanFor(p, sessionId);
      var marked := Marked(old(session.Snapshot()), clock.startedAt);
      && db.venues == old(db.venues) + plan.stored.rows
      && db.commits == old(db.commits) + [marked, session.Snapshot()]
      && (!plan.stored.failed ==>
            outcome == Computed && session.Snapshot() == Completed(marked, plan.midpoint, clock.finishedAt))
      && (plan.stored.failed ==>
            outcome == Failed && session.Snapshot() == Reset(marked, clock.finishedAt))
  {
    MarkComputing(db, session, clock.startedAt);

    var midpoint, rawVenues, reviewAnalyses, enrichments := RunSearchStages(p, sessionId);

    // Store one row per venue.
    var failed := StoreRows(db, rawVenues, sessionId, p.newId, reviewAnalyses, enrichments);
    if failed {
      // The failure path: reset the status; the pending rows are committed with it.
      MarkReset(db, session, clock.finishedAt);
      return Failed;
    }

    MarkCompleted(db, session, midpoint, clock.finishedAt);
    return Computed;
  }

  /**
   * `compute_midpoint(session_id)`, reading the clock at the times in `clock`. An unknown id or a
   * failed guard changes and commits nothing; otherwise the session is committed twice: first as
   * `computing`, then as `voting` with the stage results or back as `ready_to_compute`.
   */
  method ComputeMidpoint(db: Database, sessionId: string, clock: Clock, p: Providers)
    returns (outcome: ComputeOutcome)
    modifies db, if sessionId in db.sessions then {db.sessions[sessionId]} else {}
    ensures db.sessions == old(db.sessions)
    ensures sessionId !in db.sessions ==>
      outcome == NotFound && db.venues == old(db.venues) && db.commits == old(db.commits)
    ensures sessionId in db.sessions ==>
      var s := db.sessions[sessionId];
      var before := old(s.Snapshot());
      var check := Check(before.createdAt, before.status, before.userBLat, before.userBLng, clock.checkedAt);
      var plan := PlanFor(p, sessionId);
      var marked := Marked(before, clock.startedAt);
      && (check.Some? ==> outcome == check.value && s.Snapshot() == before
                          && db.venues == old(db.venues) && db.commits == old(db.commits))
      && (check.None? ==> db.venues == old(db.venues) + plan.stored.rows
                          && db.commits == old(db.commits) + [marked, s.Snapshot()])
      && (check.None? && !plan.stored.failed ==>
            outcome == Computed && s.Snapshot() == Completed(marked, plan.midpoint, clock.finishedAt))
      && (check.None? && plan.stored.failed ==>
            outcome == Failed && s.Snapshot() == Reset(marked, clock.finishedAt))
  {
    if sessionId !in db.sessions {
      return NotFound;
    }
    var session := db.sessions[sessionId];
    var check := Check(session.createdAt, session.status, session.userBLat, session.userBLng, clock.checkedAt);
    if check.Some? {
      return check.value;
    }
    outcome := RunStages(db, session, sessionId, clock, p);
  }

  /** Once the storing loop has raised, further venues change nothing. */
  lemma {:induction false} BuildRowsFailedStable(venues: seq<Place>, j: nat, sessionId: string, newId: nat -> string,
                                                 analyses: map<string, RA.Analysis>, enrichments: map<string, VE.Enrichment>)
    requires j <= |venues| && BuildRows(venues[..j], sessionId, newId, analyses, enrichments).failed
    ensures BuildRows(venues, sessionId, newId, analyses, enrichments) == BuildRows(venues[..j], sessionId, newId, analyses, enrichments)
    decreases |venues|
  {
    if j < |venues| {
      var init := venues[..|venues| - 1];
      assert init[..j] == venues[..j];
      BuildRowsFailedStable(init, j, sessionId, newId, analyses, enrichments);
    } else {
      assert venues[..j] == venues;
    }
  }

  /** Once the loop raises at venue `i`, the rows so far are the whole result of the storing loop. */
  lemma RowsFailurePersists(venues: seq<Place>, i: nat, sessionId: string, newId: nat -> string,
                            analyses: map<string, RA.Analysis>, enrichments: map<string, VE.Enrichment>)
    requires i < |venues| && venues[i].location.None?
    requires !BuildRows(venues[..i], sessionId, newId, analyses, enrichments).failed
    ensures BuildRows(venues, sessionId, newId, analyses, enrichments)
            == Rows(BuildRows(venues[..i], sessionId, newId, analyses, enrichments).rows, true)
  {
    var prefix := venues[..i + 1];
    assert prefix[..i] == venues[..i];
    assert RowAt(prefix, i, sessionId, newId, analyses, enrichments).None?;
    assert BuildRows(prefix, sessionId, newId, analyses, enrichments)
           == Rows(BuildRows(venues[..i], sessionId, newId, analyses, enrichments).rows, true);
    BuildRowsFailedStable(venues, i + 1, sessionId, newId, analyses, enrichments);
  }

  /**
   * A venue search that raised still ends the run in `voting`: there are no venues to analyse,
   * enrich or store, so nothing can fail and no row is added.
   */
  lemma SearchFailureStillVotes(p: Providers, sessionId: string)
    requires Resolve(ChooseMidpoint(p.geographicMidpoint, p.solver).midpoint, p.search, p.log10).venues.None?
    ensures PlanFor(p, sessionId).raw == []
    ensures PlanFor(p, sessionId).stored == Rows([], false)
  {
  }

  /** When every venue found has a location, each one gets its row, in order. */
  lemma AllLocatedAllStored(p: Providers, sessionId: string)
    requires var raw := PlanFor(p, sessionId).raw; forall i :: 0 <= i < |raw| ==> raw[i].location.Some?
    ensures var plan := PlanFor(p, sessionId);
      && !plan.stored.failed && |plan.stored.rows| == |plan.raw|
      && forall i :: 0 <= i < |plan.raw| ==> plan.stored.rows[i].sessionId == sessionId
                                             && plan.stored.rows[i].id == p.newId(i)
  {
  }
}

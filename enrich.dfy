/** merge_detailed_event and process_events_with_details of
    TennisDataProcessor: a processed event is enriched with the detail record
    the provider returns for its id, or with synthetic demo data when there
    is none.

    The provider client is a function from the id string to what
    get_event_by_id produces: a record, nothing, or an exception. */
module Enrich {
  import opened Wrappers
  import opened Values
  import opened Extract
  import opened Normalize
  import opened Demo

  // ---------------------------------------------------------------- merge

  /** The fields merge_detailed_event may write. */
  const DetailFields: set<string> :=
    {"home_player", "away_player", "league", "round", "start_time", "status", "score_json",
     "venue", "city", "description"}

  /** `if detail.get(key): enriched[field] = detail[key]` */
  function IfTruthy(v: Val): Option<Field>
  {
    if Truthy(v) then Some(Plain(v)) else None
  }

  /** The round a detail record gives: strRound as it is, else intRound as a string. */
  function DetailRound(d: Record): Option<Field>
  {
    if Truthy(Get(d, "strRound")) then Some(Plain(Get(d, "strRound")))
    else if Truthy(Get(d, "intRound")) then Some(Text(ToStr(Get(d, "intRound"))))
    else None
  }

  /** The single-field record handed to _format_datetime for the start time:
      strTimestamp, else dateEvent and strTime joined by 'T'. */
  function StartRecord(d: Record): Option<Record> {
    var ts := Get(d, "strTimestamp");
    if Truthy(ts) then Some(map["strTimestamp" := ts])
    else if Truthy(Get(d, "dateEvent")) && Truthy(Get(d, "strTime")) then
      Some(map["strTimestamp" := Str(ToStr(Get(d, "dateEvent")) + "T" + ToStr(Get(d, "strTime")))])
    else None
  }

  /** The start time merge_detailed_event writes, reformatted by _format_datetime. */
  function DetailStart(d: Record, env: Env): Option<string>
  {
    match StartRecord(d)
    case Some(r) => Some(FormatDatetime(r, env))
    case None => None
  }

  /** What merge_detailed_event writes under one field, given the detail
      record, its mapped status, its start time and its score; None where it
      leaves the field alone. */
  function DetailValue(d: Record, st: Status, start: Option<string>, score: Option<Score>, key: string): Option<Field> {
    if key == "home_player" then IfTruthy(Get(d, "strHomeTeam"))
    else if key == "away_player" then IfTruthy(Get(d, "strAwayTeam"))
    else if key == "league" then IfTruthy(Get(d, "strLeague"))
    else if key == "round" then DetailRound(d)
    else if key == "start_time" then (if start.Some? then Some(Text(start.value)) else None)
    else if key == "status" then (if st != Scheduled then Some(Text(st.Name())) else None)
    else if key == "score_json" then (if score.Some? then Some(ScoreJson(score.value)) else None)
    else if key == "venue" then IfTruthy(Get(d, "strVenue"))
    else if key == "city" then IfTruthy(Get(d, "strCity"))
    else if key == "description" then IfTruthy(Get(d, "strDescriptionEN"))
    else None
  }

  /** The fields merge_detailed_event overwrites, with their new values. */
  function Updates(d: Record, st: Status, start: Option<string>, score: Option<Score>): Event
  {
    map k | k in DetailFields && DetailValue(d, st, start, score, k).Some? :: DetailValue(d, st, start, score, k).value
  }

  /** The merged event, from the detail record and what was derived from it. */
  function MergedWith(basic: Event, d: Record, st: Status, start: Option<string>, score: Option<Score>): (r: Event)
    ensures basic.Keys <= r.Keys <= basic.Keys + DetailFields
    ensures forall k :: k in basic && k !in DetailFields ==> r[k] == basic[k]
  {
    basic + Updates(d, st, start, score)
  }

  /** merge_detailed_event: the basic event with the fields the detail record
      improves overwritten; the basic event unchanged when mapping the
      detail's status raises. It never drops a field, and touches none but
      the detail fields. */
  function MergeDetailedEvent(basic: Event, d: Record, env: Env): (r: Event)
    ensures MapStatus(d, env).Raised? ==> r == basic
    ensures basic.Keys <= r.Keys <= basic.Keys + DetailFields
    ensures forall k :: k in basic && k !in DetailFields ==> r[k] == basic[k]
  {
    match MapStatus(d, env)
    case Raised => basic
    case Ok(st) => MergedWith(basic, d, st, DetailStart(d, env), ExtractScore(d))
  }

  /** A field of the merged event: the detail's value when it gives one,
      else the basic event's. */
  lemma MergedLookup(basic: Event, d: Record, st: Status, start: Option<string>, score: Option<Score>, key: string)
    requires key in DetailFields
    ensures var f := DetailValue(d, st, start, score, key);
      Lookup(MergedWith(basic, d, st, start, score), key) == if f.Some? then f.value else Lookup(basic, key)
  {
  }

  /** Every field of the merged event, from its parts. */
  lemma MergedFields(basic: Event, d: Record, st: Status, start: Option<string>, score: Option<Score>)
    ensures var r := MergedWith(basic, d, st, start, score);
      && Lookup(r, "home_player") == (if Truthy(Get(d, "strHomeTeam")) then Plain(Get(d, "strHomeTeam")) else Lookup(basic, "home_player"))
      && Lookup(r, "away_player") == (if Truthy(Get(d, "strAwayTeam")) then Plain(Get(d, "strAwayTeam")) else Lookup(basic, "away_player"))
      && Lookup(r, "league") == (if Truthy(Get(d, "strLeague")) then Plain(Get(d, "strLeague")) else Lookup(basic, "league"))
      && Lookup(r, "venue") == (if Truthy(Get(d, "strVenue")) then Plain(Get(d, "strVenue")) else Lookup(basic, "venue"))
      && Lookup(r, "city") == (if Truthy(Get(d, "strCity")) then Plain(Get(d, "strCity")) else Lookup(basic, "city"))
      && Lookup(r, "description") == (if Truthy(Get(d, "strDescriptionEN")) then Plain(Get(d, "strDescriptionEN")) else Lookup(basic, "description"))
      && Lookup(r, "round") == (if DetailRound(d).Some? then DetailRound(d).value else Lookup(basic, "round"))
      && Lookup(r, "start_time") == (if start.Some? then Text(start.value) else Lookup(basic, "start_time"))
      && Lookup(r, "status") == (if st != Scheduled then Text(st.Name()) else Lookup(basic, "status"))
      && Lookup(r, "score_json") == (if score.Some? then ScoreJson(score.value) else Lookup(basic, "score_json"))
  {
    MergedLookup(basic, d, st, start, score, "home_player");
    MergedLookup(basic, d, st, start, score, "away_player");
    MergedLookup(basic, d, st, start, score, "league");
    MergedLookup(basic, d, st, start, score, "venue");
    MergedLookup(basic, d, st, start, score, "city");
    MergedLookup(basic, d, st, start, score, "description");
    MergedLookup(basic, d, st, start, score, "round");
    MergedLookup(basic, d, st, start, score, "start_time");
    MergedLookup(basic, d, st, start, score, "status");
    MergedLookup(basic, d, st, start, score, "score_json");
  }

  /** The merged event when mapping the detail's status does not raise. */
  lemma MergeUnfold(basic: Event, d: Record, env: Env)
    requires MapStatus(d, env).Ok?
    ensures MergeDetailedEvent(basic, d, env) == MergedWith(basic, d, MapStatus(d, env).value, DetailStart(d, env), ExtractScore(d))
  {
  }

  /** Player names, league, venue, city and description are copied from the
      detail record exactly when it has them truthy. */
  lemma MergeCopiesTruthyFields(basic: Event, d: Record, env: Env)
    requires MapStatus(d, env).Ok?
    ensures var r := MergeDetailedEvent(basic, d, env);
      && Lookup(r, "home_player") == (if Truthy(Get(d, "strHomeTeam")) then Plain(Get(d, "strHomeTeam")) else Lookup(basic, "home_player"))
      && Lookup(r, "away_player") == (if Truthy(Get(d, "strAwayTeam")) then Plain(Get(d, "strAwayTeam")) else Lookup(basic, "away_player"))
      && Lookup(r, "league") == (if Truthy(Get(d, "strLeague")) then Plain(Get(d, "strLeague")) else Lookup(basic, "league"))
      && Lookup(r, "venue") == (if Truthy(Get(d, "strVenue")) then Plain(Get(d, "strVenue")) else Lookup(basic, "venue"))
      && Lookup(r, "city") == (if Truthy(Get(d, "strCity")) then Plain(Get(d, "strCity")) else Lookup(basic, "city"))
      && Lookup(r, "description") == (if Truthy(Get(d, "strDescriptionEN")) then Plain(Get(d, "strDescriptionEN")) else Lookup(basic, "description"))
  {
    MergeUnfold(basic, d, env);
    MergedFields(basic, d, MapStatus(d, env).value, DetailStart(d, env), ExtractScore(d));
  }

  /** strRound wins over intRound, which is stored as a string; with neither
      the basic round stays. */
  lemma MergeRound(basic: Event, d: Record, env: Env)
    requires MapStatus(d, env).Ok?
    ensures var r := MergeDetailedEvent(basic, d, env);
      && (Truthy(Get(d, "strRound")) ==> r["round"] == Plain(Get(d, "strRound")))
      && (!Truthy(Get(d, "strRound")) && Truthy(Get(d, "intRound")) ==> r["round"] == Text(ToStr(Get(d, "intRound"))))
      && (!Truthy(Get(d, "strRound")) && !Truthy(Get(d, "intRound")) ==> Lookup(r, "round") == Lookup(basic, "round"))
  {
    MergeUnfold(basic, d, env);
    MergedFields(basic, d, MapStatus(d, env).value, DetailStart(d, env), ExtractScore(d));
  }

  /** The start time is reformatted from strTimestamp, else from dateEvent
      'T' strTime; with neither the basic one stays. */
  lemma MergeStartTime(basic: Event, d: Record, env: Env)
    requires MapStatus(d, env).Ok?
    ensures var r := MergeDetailedEvent(basic, d, env);
      && (Truthy(Get(d, "strTimestamp")) ==>
            r["start_time"] == Text(FormatDatetime(map["strTimestamp" := Get(d, "strTimestamp")], env)))
      && (!Truthy(Get(d, "strTimestamp")) && Truthy(Get(d, "dateEvent")) && Truthy(Get(d, "strTime")) ==>
            r["start_time"] == Text(FormatDatetime(map["strTimestamp" := Str(ToStr(Get(d, "dateEvent")) + "T" + ToStr(Get(d, "strTime")))], env)))
      && (!Truthy(Get(d, "strTimestamp")) && !(Truthy(Get(d, "dateEvent")) && Truthy(Get(d, "strTime"))) ==>
            Lookup(r, "start_time") == Lookup(basic, "start_time"))
  {
    MergeUnfold(basic, d, env);
    MergedFields(basic, d, MapStatus(d, env).value, DetailStart(d, env), ExtractScore(d));
  }

  /** The detail's status replaces the basic one only when it is not
      'Scheduled': merging never turns an event back into 'Scheduled'. */
  lemma MergeStatus(basic: Event, d: Record, env: Env)
    ensures var r := MergeDetailedEvent(basic, d, env);
      && (MapStatus(d, env).Ok? && MapStatus(d, env).value != Scheduled ==>
            r["status"] == Text(MapStatus(d, env).value.Name()))
      && (MapStatus(d, env) != Ok(InPlay) && MapStatus(d, env) != Ok(Finished) ==>
            Lookup(r, "status") == Lookup(basic, "status"))
      && (Lookup(r, "status") == Text(Scheduled.Name()) ==> Lookup(basic, "status") == Text(Scheduled.Name()))
  {
    if MapStatus(d, env).Ok? {
      MergeUnfold(basic, d, env);
      MergedFields(basic, d, MapStatus(d, env).value, DetailStart(d, env), ExtractScore(d));
    }
  }

  /** A score the detail record yields replaces the basic one; otherwise the
      basic score stays. */
  lemma MergeScore(basic: Event, d: Record, env: Env)
    requires MapStatus(d, env).Ok?
    ensures var r := MergeDetailedEvent(basic, d, env);
      && (ExtractScore(d).Some? ==> r["score_json"] == ScoreJson(ExtractScore(d).value))
      && (ExtractScore(d).None? ==> Lookup(r, "score_json") == Lookup(basic, "score_json"))
  {
    MergeUnfold(basic, d, env);
    MergedFields(basic, d, MapStatus(d, env).value, DetailStart(d, env), ExtractScore(d));
  }

  /** Merging the same details twice is merging them once. */
  lemma MergeIdempotent(basic: Event, d: Record, env: Env)
    ensures MergeDetailedEvent(MergeDetailedEvent(basic, d, env), d, env) == MergeDetailedEvent(basic, d, env)
  {
    if MapStatus(d, env).Ok? {
      MergeUnfold(basic, d, env);
      MergeUnfold(MergeDetailedEvent(basic, d, env), d, env);
      MergedWithTwice(basic, d, MapStatus(d, env).value, DetailStart(d, env), ExtractScore(d));
    }
  }

  lemma MergedWithTwice(basic: Event, d: Record, st: Status, start: Option<string>, score: Option<Score>)
    ensures MergedWith(MergedWith(basic, d, st, start, score), d, st, start, score) == MergedWith(basic, d, st, start, score)
  {
    var u := Updates(d, st, start, score);
    assert basic + u + u == basic + u;
  }

  /** An empty detail record changes nothing. */
  lemma MergeEmptyDetail(basic: Event, env: Env)
    ensures MergeDetailedEvent(basic, map[], env) == basic
  {
    var d: Record := map[];
    EmptyDetailStatus(env);
    assert DetailStart(d, env).None?;
    assert ExtractScore(d).None?;
    NoUpdates(basic, d, DetailStart(d, env), ExtractScore(d));
  }

  /** An empty record has no status field and no date, so it maps to 'Scheduled'. */
  lemma EmptyDetailStatus(env: Env)
    ensures MapStatus(map[], env) == Ok(Scheduled)
  {
    var d: Record := map[];
    assert ExplicitStatus(d, 3) == Ok(None);
    assert ExplicitStatus(d, 2) == Ok(None);
    assert ExplicitStatus(d, 1) == Ok(None);
    assert ExplicitStatus(d, 0) == Ok(None);
    assert forall j :: 0 <= j < |DateKeys| ==> Get(d, DateKeys[j]) == Null;
  }

  lemma NoUpdates(basic: Event, d: Record, start: Option<string>, score: Option<Score>)
    requires d == map[] && start.None? && score.None?
    ensures MergedWith(basic, d, Scheduled, start, score) == basic
  {
    assert forall k :: k in DetailFields ==> DetailValue(d, Scheduled, start, score, k).None?;
    assert Updates(d, Scheduled, start, score) == map[];
    assert basic + map[] == basic;
  }

  /** The field holds a str wherever it is truthy. */
  predicate TextWhenTruthy(d: Record, key: string) {
    Truthy(Get(d, key)) ==> Get(d, key).Str?
  }

  /** A well-formed event stays well-formed when the detail record's player,
      league and round fields are strings wherever they are truthy. */
  lemma MergeWellFormed(basic: Event, d: Record, env: Env)
    requires WellFormed(basic)
    requires TextWhenTruthy(d, "strHomeTeam") && TextWhenTruthy(d, "strAwayTeam")
    requires TextWhenTruthy(d, "strLeague") && TextWhenTruthy(d, "strRound")
    ensures WellFormed(MergeDetailedEvent(basic, d, env))
  {
    if MapStatus(d, env).Ok? {
      MergeUnfold(basic, d, env);
      MergedWellFormed(basic, d, MapStatus(d, env).value, DetailStart(d, env), ExtractScore(d));
    }
  }

  lemma MergedWellFormed(basic: Event, d: Record, st: Status, start: Option<string>, score: Option<Score>)
    requires WellFormed(basic)
    requires TextWhenTruthy(d, "strHomeTeam") && TextWhenTruthy(d, "strAwayTeam")
    requires TextWhenTruthy(d, "strLeague") && TextWhenTruthy(d, "strRound")
    ensures WellFormed(MergedWith(basic, d, st, start, score))
  {
    MergedFields(basic, d, st, start, score);
    MergedShape(basic, MergedWith(basic, d, st, start, score));
  }

  /** The conditions under which the merged event is well-formed, stated on
      its fields alone. */
  lemma MergedShape(basic: Event, r: Event)
    requires WellFormed(basic) && basic.Keys <= r.Keys
    requires forall k :: k in basic && k !in DetailFields ==> r[k] == basic[k]
    requires Lookup(r, "home_player").Plain? && Lookup(r, "home_player").v.Str?
    requires Lookup(r, "away_player").Plain? && Lookup(r, "away_player").v.Str?
    requires Lookup(r, "league").Plain? && Lookup(r, "league").v.Str?
    requires Lookup(r, "start_time").Plain? && Lookup(r, "start_time").v.Str?
    requires Lookup(r, "round") == Plain(Null) || (Lookup(r, "round").Plain? && Lookup(r, "round").v.Str?)
    requires Lookup(r, "status") in {Text(Scheduled.Name()), Text(InPlay.Name()), Text(Finished.Name())}
    requires Lookup(r, "score_json") == Plain(Null) || Lookup(r, "score_json").ScoreJson?
    ensures WellFormed(r)
  {
    assert "id" !in DetailFields && "external_event_id" !in DetailFields;
  }

  /** The updates u to the fields in `done`. */
  function Restrict(u: Event, done: set<string>): (r: Event)
    ensures r.Keys == u.Keys * done && forall k :: k in r ==> r[k] == u[k]
  {
    map k | k in u.Keys * done :: u[k]
  }

  /** One assignment of merge_detailed_event, `if c: enriched[key] = v`,
      applies the update to one more field: c holds exactly when there is
      an update to the field, and v is it. */
  lemma UpdateStep(basic: Event, u: Event, done: set<string>, key: string, c: bool, v: Field, prev: Event, next: Event)
    requires prev == basic + Restrict(u, done)
    requires (key in u <==> c) && (c ==> u[key] == v)
    requires next == if c then prev[key := v] else prev
    ensures next == basic + Restrict(u, done + {key})
  {
  }

  /** With every detail field done, the copy is the merged event. */
  lemma UpdatedAll(basic: Event, u: Event, done: set<string>)
    requires u.Keys <= DetailFields <= done
    ensures basic + Restrict(u, done) == basic + u
  {
  }

  /** The update to one detail field is its DetailValue. */
  lemma UpdateFact(d: Record, st: Status, start: Option<string>, score: Option<Score>, key: string)
    requires key in DetailFields
    ensures var u := Updates(d, st, start, score); var f := DetailValue(d, st, start, score, key);
      (key in u <==> f.Some?) && (f.Some? ==> u[key] == f.value)
  {
  }

  /** One guarded assignment of merge_detailed_event, `if value:
      enriched[key] = value`, with f holding the value when the guard
      passes. Done on the detail fields already copied, it copies one more. */
  method AssignIf(enriched: Event, key: string, f: Option<Field>, ghost basic: Event, ghost u: Event, ghost done: set<string>)
    returns (r: Event)
    requires enriched == basic + Restrict(u, done)
    requires (key in u <==> f.Some?) && (f.Some? ==> u[key] == f.value)
    ensures r == if f.Some? then enriched[key := f.value] else enriched
    ensures r == basic + Restrict(u, done + {key})
  {
    r := enriched;
    if f.Some? {
      r := r[key := f.value];
    }
    UpdateStep(basic, u, done, key, f.Some?, if f.Some? then f.value else Plain(Null), enriched, r);
  }

  /** The player names and the league from the detail record. */
  method CopyNames(enriched: Event, d: Record, st: Status, start: Option<string>, score: Option<Score>,
                  ghost basic: Event, ghost u: Event, ghost done: set<string>)
    returns (r: Event)
    requires u == Updates(d, st, start, score)
    requires enriched == basic + Restrict(u, done)
    ensures r == basic + Restrict(u, done + {"home_player"} + {"away_player"} + {"league"})
  {
    r := enriched;
    ghost var now := done;
    UpdateFact(d, st, start, score, "home_player");
    r := AssignIf(r, "home_player", IfTruthy(Get(d, "strHomeTeam")), basic, u, now);
    now := now + {"home_player"};
    UpdateFact(d, st, start, score, "away_player");
    r := AssignIf(r, "away_player", IfTruthy(Get(d, "strAwayTeam")), basic, u, now);
    now := now + {"away_player"};
    UpdateFact(d, st, start, score, "league");
    r := AssignIf(r, "league", IfTruthy(Get(d, "strLeague")), basic, u, now);
    now := now + {"league"};
  }

  /** The round, the start time, the status and the score. */
  method CopyMatchInfo(enriched: Event, d: Record, st: Status, start: Option<string>, score: Option<Score>,
                  ghost basic: Event, ghost u: Event, ghost done: set<string>)
    returns (r: Event)
    requires u == Updates(d, st, start, score)
    requires enriched == basic + Restrict(u, done)
    ensures r == basic + Restrict(u, done + {"round"} + {"start_time"} + {"status"} + {"score_json"})
  {
    r := enriched;
    ghost var now := done;
    UpdateFact(d, st, start, score, "round");
    r := AssignIf(r, "round", DetailRound(d), basic, u, now);
    now := now + {"round"};
    UpdateFact(d, st, start, score, "start_time");
    r := AssignIf(r, "start_time", if start.Some? then Some(Text(start.value)) else None, basic, u, now);
    now := now + {"start_time"};
    UpdateFact(d, st, start, score, "status");
    r := AssignIf(r, "status", if st != Scheduled then Some(Text(st.Name())) else None, basic, u, now);
    now := now + {"status"};
    UpdateFact(d, st, start, score, "score_json");
    r := AssignIf(r, "score_json", if score.Some? then Some(ScoreJson(score.value)) else None, basic, u, now);
    now := now + {"score_json"};
  }

  /** The venue, the city and the description. */
  method CopyPlace(enriched: Event, d: Record, st: Status, start: Option<string>, score: Option<Score>,
                  ghost basic: Event, ghost u: Event, ghost done: set<string>)
    returns (r: Event)
    requires u == Updates(d, st, start, score)
    requires enriched == basic + Restrict(u, done)
    ensures r == basic + Restrict(u, done + {"venue"} + {"city"} + {"description"})
  {
    r := enriched;
    ghost var now := done;
    UpdateFact(d, st, start, score, "venue");
    r := AssignIf(r, "venue", IfTruthy(Get(d, "strVenue")), basic, u, now);
    now := now + {"venue"};
    UpdateFact(d, st, start, score, "city");
    r := AssignIf(r, "city", IfTruthy(Get(d, "strCity")), basic, u, now);
    now := now + {"city"};
    UpdateFact(d, st, start, score, "description");
    r := AssignIf(r, "description", IfTruthy(Get(d, "strDescriptionEN")), basic, u, now);
    now := now + {"description"};
  }

  /** The assignments of merge_detailed_event, in the source's order, on a
      copy of the basic event, given the detail record's mapped status,
      start time and score. */
  method CopyWithDetails(basic: Event, d: Record, st: Status, start: Option<string>, score: Option<Score>)
    returns (enriched: Event)
    ensures enriched == MergedWith(basic, d, st, start, score)
  {
    ghost var u := Updates(d, st, start, score);
    enriched := basic;
    enriched := CopyNames(enriched, d, st, start, score, basic, u, {});
    ghost var done := {} + {"home_player"} + {"away_player"} + {"league"};
    enriched := CopyMatchInfo(enriched, d, st, start, score, basic, u, done);
    done := done + {"round"} + {"start_time"} + {"status"} + {"score_json"};
    enriched := CopyPlace(enriched, d, st, start, score, basic, u, done);
    done := done + {"venue"} + {"city"} + {"description"};
    UpdatedAll(basic, u, done);
  }

  /** merge_detailed_event as the source performs it: a copy of the basic
      event with its fields overwritten one by one, or the basic event when
      mapping the detail's status raises. That raise discards the copy, so
      deriving the status, start time and score before the assignments
      gives the same result. */
  method Merge(basic: Event, d: Record, env: Env) returns (enriched: Event)
    ensures enriched == MergeDetailedEvent(basic, d, env)
  {
    var status := MapStatus(d, env);
    if status.Raised? {
      return basic;
    }
    var start := DetailStart(d, env);
    var score := ExtractScore(d);
    enriched := CopyWithDetails(basic, d, status.value, start, score);
    MergeUnfold(basic, d, env);
  }

  // ---------------------------------------------------------------- enrichment

  /** What get_event_by_id produced for an id: a record (possibly empty),
      None, or an exception. */
  datatype Fetch = Found(rec: Record) | NotFound | Failed

  /** The provider client's get_event_by_id, as a function of the id string. */
  type Fetcher = string -> Fetch

  /** `if detailed_event:` is true: a non-empty record came back. */
  predicate HasDetail(f: Fetch) {
    f.Found? && f.rec != map[]
  }

  /** The fields enrichment may write, by a merge or by the demo data. */
  const EnrichFields: set<string> := DetailFields + DemoFields

  /** A fetch result that leaves the basic event as it is: an exception, or
      a record for another event. */
  predicate Useless(f: Fetch, id: string) {
    f.Failed? || (HasDetail(f) && ToStr(Get(f.rec, "idEvent")) != id)
  }

  /** str(event['id']) */
  function IdText(ev: Event): string
    requires "id" in ev && ev["id"].Plain?
  {
    ToStr(ev["id"].v)
  }

  /** The try block of the loop of process_events_with_details, for a
      processed event with an id: Raised when get_event_by_id raises;
      otherwise the event merged with its details when the provider returns
      the same event, the event as it is when the provider returns another
      one, and the event with demo data when there are no details. Only the
      demo data draws random numbers. */
  function TryEnrich(basic: Event, env: Env, fetch: Fetcher, rnd: Random, pos: nat): (r: Outcome<(Event, nat)>)
    requires WellFormed(basic)
    ensures r.Raised? <==> fetch(IdText(basic)).Failed?
    ensures r.Ok? ==> KeepsOutside(basic, r.value.0, EnrichFields)
    ensures Useless(fetch(IdText(basic)), IdText(basic)) && r.Ok? ==> r.value == (basic, pos)
    ensures HasDetail(fetch(IdText(basic))) ==> r.Ok? && r.value.1 == pos
    ensures !HasDetail(fetch(IdText(basic))) && r.Ok? ==> DemoShaped(r.value.0) && r.value.1 > pos
    ensures var f := fetch(IdText(basic));
      HasDetail(f) && ToStr(Get(f.rec, "idEvent")) == IdText(basic) ==> r == Ok((MergeDetailedEvent(basic, f.rec, env), pos))
    ensures !HasDetail(fetch(IdText(basic))) && !fetch(IdText(basic)).Failed? ==> r == Ok(EnhanceDemoEvent(basic, rnd, pos))
  {
    var id := IdText(basic);
    var detail := fetch(id);
    if detail.Failed? then Raised
    else if HasDetail(detail) then
      if ToStr(Get(detail.rec, "idEvent")) == id then
        var merged := MergeDetailedEvent(basic, detail.rec, env);
        KeepsMore(basic, merged, DetailFields, EnrichFields);
        Ok((merged, pos))
      else Ok((basic, pos))
    else
      EnhanceDemoEventKeys(basic, rnd, pos);
      EnhanceDemoEventNames(basic, rnd, pos);
      var (ev, next) := EnhanceDemoEvent(basic, rnd, pos);
      KeepsMore(basic, ev, DemoFields, EnrichFields);
      Ok((ev, next))
  }

  /** What one iteration of the loop appends for a processed event with an
      id, and the next draw position: when the try block raises, the except
      branch processes the record again, which gives the same event. */
  function EnrichOne(basic: Event, env: Env, fetch: Fetcher, rnd: Random, pos: nat): (r: (Event, nat))
    requires WellFormed(basic)
    ensures KeepsOutside(basic, r.0, EnrichFields)
    ensures Useless(fetch(IdText(basic)), IdText(basic)) ==> r == (basic, pos)
    ensures !HasDetail(fetch(IdText(basic))) && !fetch(IdText(basic)).Failed? ==> DemoShaped(r.0) && r.1 > pos
    ensures r.1 >= pos
    ensures var f := fetch(IdText(basic));
      HasDetail(f) && ToStr(Get(f.rec, "idEvent")) == IdText(basic) ==> r == (MergeDetailedEvent(basic, f.rec, env), pos)
    ensures !HasDetail(fetch(IdText(basic))) && !fetch(IdText(basic)).Failed? ==> r == EnhanceDemoEvent(basic, rnd, pos)
  {
    match TryEnrich(basic, env, fetch, rnd, pos)
    case Raised => (basic, pos)
    case Ok(r) => r
  }

  /** The demo data gives an event a venue and its city from the venue list. */
  predicate DemoShaped(ev: Event) {
    && "venue" in ev && "city" in ev
    && exists v :: v in Venues && ev["venue"] == Text(v.0) && ev["city"] == Text(v.1)
  }

  lemma KeepsMore(a: Event, b: Event, w: set<string>, w': set<string>)
    requires KeepsOutside(a, b, w) && w <= w'
    ensures KeepsOutside(a, b, w')
  {
  }

  /** A per-record processing whose events are well-formed wherever they
      have an id, as process_event's are. */
  ghost predicate SoundProcess(process: Record -> Event) {
    forall e :: HasId(process(e)) ==> WellFormed(process(e))
  }

  lemma ProcessorSound(env: Env)
    ensures SoundProcess(Processor(env))
  {
    forall e | HasId(Processor(env)(e))
      ensures WellFormed(Processor(env)(e))
    {
      assert Processor(env)(e) == ProcessEvent(e, env);
      ProcessEventKeptIff(e, env);
    }
  }

  /** One record of the loop of process_events_with_details: nothing when its
      processed event has no id, else the enriched event. */
  function EnrichStep(e: Record, process: Record -> Event, env: Env, fetch: Fetcher, rnd: Random, pos: nat): (r: (Option<Event>, nat))
    requires SoundProcess(process)
    ensures r.0.Some? <==> HasId(process(e))
    ensures r.0.Some? ==> KeepsOutside(process(e), r.0.value, EnrichFields)
    ensures r.1 >= pos
  {
    var basic := process(e);
    if !HasId(basic) then (None, pos)
    else
      var (ev, next) := EnrichOne(basic, env, fetch, rnd, pos);
      (Some(ev), next)
  }

  /** The loop of process_events_with_details, for a given per-record
      processing: the enriched events, and the position of the next random
      draw. */
  function EnrichedBy(events: seq<Record>, process: Record -> Event, env: Env, fetch: Fetcher, rnd: Random, pos: nat): (seq<Event>, nat)
    requires SoundProcess(process)
  {
    if events == [] then ([], pos)
    else
      var (init, p) := EnrichedBy(events[..|events| - 1], process, env, fetch, rnd, pos);
      var (o, next) := EnrichStep(events[|events| - 1], process, env, fetch, rnd, p);
      match o
      case Some(ev) => (init + [ev], next)
      case None => (init, next)
  }

  /** What process_events_with_details returns for a list of records, and
      the position of the next random draw. */
  function EnrichedEvents(events: seq<Record>, env: Env, fetch: Fetcher, rnd: Random, pos: nat): (r: (seq<Event>, nat))
    ensures EnrichedFrom(r.0, KeptEvents(events, env), env, fetch, rnd, pos)
  {
    ProcessorSound(env);
    EnrichedFollowKept(events, Processor(env), env, fetch, rnd, pos);
    assert KeptEvents(events, env) == KeptBy(events, Processor(env));
    EnrichedBy(events, Processor(env), env, fetch, rnd, pos)
  }

  /** The events out are the events kept, one for one and in order, each
      enriched on its own, at the draw position the events before it leave. */
  ghost predicate EnrichedFrom(out: seq<Event>, kept: seq<Event>, env: Env, fetch: Fetcher, rnd: Random, pos: nat) {
    && |out| == |kept|
    && AllWellFormed(kept)
    && forall k :: 0 <= k < |out| ==>
         && AllWellFormed(kept[..k])
         && out[k] == EnrichOne(kept[k], env, fetch, rnd, EnrichAll(kept[..k], env, fetch, rnd, pos).1).0
  }

  /** Every event of the list is well-formed. */
  predicate AllWellFormed(evs: seq<Event>) {
    forall k :: 0 <= k < |evs| ==> WellFormed(evs[k])
  }

  /** The reference for the enrichment loop: each event of an already
      processed list enriched in turn, each draw starting where the
      previous event's draws ended. */
  function EnrichAll(kept: seq<Event>, env: Env, fetch: Fetcher, rnd: Random, pos: nat): (r: (seq<Event>, nat))
    requires AllWellFormed(kept)
    ensures |r.0| == |kept| && r.1 >= pos
  {
    if kept == [] then ([], pos)
    else
      var (init, p) := EnrichAll(kept[..|kept| - 1], env, fetch, rnd, pos);
      var (ev, next) := EnrichOne(kept[|kept| - 1], env, fetch, rnd, p);
      (init + [ev], next)
  }

  /** Each output of EnrichAll is EnrichOne of the event at its position, at
      the draw position the events before it leave. */
  lemma {:induction false} EnrichAllAt(kept: seq<Event>, env: Env, fetch: Fetcher, rnd: Random, pos: nat, k: nat)
    requires AllWellFormed(kept) && k < |kept|
    ensures AllWellFormed(kept[..k])
    ensures EnrichAll(kept, env, fetch, rnd, pos).0[k] ==
              EnrichOne(kept[k], env, fetch, rnd, EnrichAll(kept[..k], env, fetch, rnd, pos).1).0
    decreases |kept|
  {
    var init := kept[..|kept| - 1];
    assert AllWellFormed(kept[..k]) by {
      forall j | 0 <= j < k
        ensures WellFormed(kept[..k][j])
      {
        assert kept[..k][j] == kept[j];
      }
    }
    if k == |kept| - 1 {
      assert kept[..k] == init;
    } else {
      assert init[..k] == kept[..k] && init[k] == kept[k];
      assert AllWellFormed(init) by {
        forall j | 0 <= j < |init|
          ensures WellFormed(init[j])
        {
          assert init[j] == kept[j];
        }
      }
      EnrichAllAt(init, env, fetch, rnd, pos, k);
    }
  }

  /** The events a processing keeps are well-formed. */
  lemma {:induction false} KeptWellFormed(events: seq<Record>, process: Record -> Event)
    requires SoundProcess(process)
    ensures AllWellFormed(KeptBy(events, process))
  {
    if events != [] {
      KeptWellFormed(events[..|events| - 1], process);
    }
  }

  /** Enriching while processing equals processing the whole list, then
      enriching the kept events in order: a fetch that raises leaves its
      own event as processed and the other events are enriched as usual. */
  lemma {:induction false} EnrichedIsEnrichAll(events: seq<Record>, process: Record -> Event, env: Env, fetch: Fetcher, rnd: Random, pos: nat)
    requires SoundProcess(process)
    ensures AllWellFormed(KeptBy(events, process))
    ensures EnrichedBy(events, process, env, fetch, rnd, pos) == EnrichAll(KeptBy(events, process), env, fetch, rnd, pos)
  {
    KeptWellFormed(events, process);
    if events != [] {
      var init := events[..|events| - 1];
      KeptWellFormed(init, process);
      EnrichedIsEnrichAll(init, process, env, fetch, rnd, pos);
      var kept := KeptBy(events, process);
      if HasId(process(events[|events| - 1])) {
        assert kept[..|kept| - 1] == KeptBy(init, process);
      }
    }
  }

  /** The try block of process_events_with_details for one processed event
      with an id: fetch its details, then merge them, keep the event or
      enhance it. */
  method EnrichDetails(basic: Event, env: Env, fetch: Fetcher, rnd: Random, pos: nat)
    returns (r: Outcome<(Event, nat)>)
    requires WellFormed(basic)
    ensures r == TryEnrich(basic, env, fetch, rnd, pos)
  {
    var id := IdText(basic);
    var detail := fetch(id);
    if detail.Failed? {
      return Raised;
    }
    if HasDetail(detail) {
      if ToStr(Get(detail.rec, "idEvent")) == id {
        var enriched := Merge(basic, detail.rec, env);
        r := Ok((enriched, pos));
      } else {
        r := Ok((basic, pos));
      }
    } else {
      var enhanced, next := Enhance(basic, rnd, pos);
      r := Ok((enhanced, next));
    }
  }

  /** process_events_with_details */
  method ProcessEventsWithDetails(events: seq<Record>, env: Env, fetch: Fetcher, rnd: Random, pos: nat)
    returns (out: seq<Event>, next: nat)
    ensures (out, next) == EnrichedEvents(events, env, fetch, rnd, pos)
  {
    if events == [] {
      return [], pos;
    }
    ProcessorSound(env);
    out, next := [], pos;
    var i := 0;
    while i < |events|
      invariant 0 <= i <= |events|
      invariant (out, next) == EnrichedBy(events[..i], Processor(env), env, fetch, rnd, pos)
    {
      EnrichedSnoc(events, i, Processor(env), env, fetch, rnd, pos);
      var basic := ProcessEvent(events[i], env);
      assert basic == Processor(env)(events[i]);
      if HasId(basic) {
        var attempt := EnrichDetails(basic, env, fetch, rnd, next);
        match attempt {
          case Raised =>
            // the except branch processes the record again
            var again := ProcessEvent(events[i], env);
            if HasId(again) {
              out := out + [again];
            }
          case Ok(r) =>
            out, next := out + [r.0], r.1;
        }
      }
      i := i + 1;
    }
    assert events[..i] == events;
  }

  /** One more record of the list: its enrichment step, at the position the
      records before it leave. */
  lemma EnrichedSnoc(events: seq<Record>, i: nat, process: Record -> Event, env: Env, fetch: Fetcher, rnd: Random, pos: nat)
    requires i < |events| && SoundProcess(process)
    ensures var (init, p) := EnrichedBy(events[..i], process, env, fetch, rnd, pos);
      var basic := process(events[i]);
      && (HasId(basic) ==>
            && WellFormed(basic)
            && EnrichedBy(events[..i + 1], process, env, fetch, rnd, pos) ==
                 (init + [EnrichOne(basic, env, fetch, rnd, p).0], EnrichOne(basic, env, fetch, rnd, p).1))
      && (!HasId(basic) ==> EnrichedBy(events[..i + 1], process, env, fetch, rnd, pos) == (init, p))
  {
    assert events[..i + 1][..i] == events[..i];
  }

  /** The enriched events are the events the processing keeps, one for one
      and in the same order: each is that kept event enriched on its own
      (merged, kept or given demo data, by its own fetch), so it is changed
      in the enrichment fields at most and keeps its id. */
  lemma EnrichedFollowKept(events: seq<Record>, process: Record -> Event, env: Env, fetch: Fetcher, rnd: Random, pos: nat)
    requires SoundProcess(process)
    ensures var out := EnrichedBy(events, process, env, fetch, rnd, pos).0;
      var kept := KeptBy(events, process);
      && EnrichedFrom(out, kept, env, fetch, rnd, pos)
      && forall k :: 0 <= k < |out| ==> KeepsOutside(kept[k], out[k], EnrichFields)
  {
    EnrichedIsEnrichAll(events, process, env, fetch, rnd, pos);
    var kept := KeptBy(events, process);
    var out := EnrichedBy(events, process, env, fetch, rnd, pos).0;
    forall k | 0 <= k < |out|
      ensures AllWellFormed(kept[..k])
      ensures out[k] == EnrichOne(kept[k], env, fetch, rnd, EnrichAll(kept[..k], env, fetch, rnd, pos).1).0
    {
      EnrichAllAt(kept, env, fetch, rnd, pos, k);
    }
  }

  /** When every fetch raises or returns another event, the enriched events
      are exactly the kept events, and nothing is drawn. */
  lemma {:induction false} EnrichedWithUselessDetails(events: seq<Record>, process: Record -> Event, env: Env, fetch: Fetcher, rnd: Random, pos: nat)
    requires SoundProcess(process)
    requires forall id :: Useless(fetch(id), id)
    ensures EnrichedBy(events, process, env, fetch, rnd, pos) == (KeptBy(events, process), pos)
  {
    if events != [] {
      var last := events[|events| - 1];
      EnrichedWithUselessDetails(events[..|events| - 1], process, env, fetch, rnd, pos);
      if HasId(process(last)) {
        assert Useless(fetch(IdText(process(last))), IdText(process(last)));
      }
    }
  }

  /** When the provider has no details for any event, every kept event comes
      out with demo data: it is that event enhanced, at some draw position,
      and has a venue and its city from the venue list. */
  lemma EnrichedWithoutDetails(events: seq<Record>, process: Record -> Event, env: Env, fetch: Fetcher, rnd: Random, pos: nat)
    requires SoundProcess(process)
    requires forall id :: fetch(id) == NotFound
    ensures var out := EnrichedBy(events, process, env, fetch, rnd, pos).0;
      var kept := KeptBy(events, process);
      && |out| == |kept|
      && forall k :: 0 <= k < |out| ==>
           && WellFormed(kept[k])
           && DemoShaped(out[k])
           && exists p :: out[k] == EnhanceDemoEvent(kept[k], rnd, p).0
  {
    EnrichedFollowKept(events, process, env, fetch, rnd, pos);
    var kept := KeptBy(events, process);
    var out := EnrichedBy(events, process, env, fetch, rnd, pos).0;
    forall k | 0 <= k < |out|
      ensures DemoShaped(out[k]) && exists p :: out[k] == EnhanceDemoEvent(kept[k], rnd, p).0
    {
      var p := EnrichAll(kept[..k], env, fetch, rnd, pos).1;
      EnrichOneNotFound(kept[k], env, fetch, rnd, p);
    }
  }

  /** An event the provider has no details for gets demo data. */
  lemma EnrichOneNotFound(basic: Event, env: Env, fetch: Fetcher, rnd: Random, p: nat)
    requires WellFormed(basic)
    requires fetch(IdText(basic)) == NotFound
    ensures DemoShaped(EnrichOne(basic, env, fetch, rnd, p).0)
    ensures EnrichOne(basic, env, fetch, rnd, p).0 == EnhanceDemoEvent(basic, rnd, p).0
  {
  }

  /** What the demo data does to an event's names and round: the names are
      cleaned (with the 'Player A' and 'Player B' defaults), and a falsy or
      '46' round becomes a round name while any other round stays, so the
      round is never '46'. */
  predicate DemoNamesAndRound(basic: Event, ev: Event)
    requires TextOrAbsent(basic, "home_player") && TextOrAbsent(basic, "away_player")
  {
    && Lookup(ev, "home_player") == Text(CleanPlayerName(TextOr(basic, "home_player", "Player A")))
    && Lookup(ev, "away_player") == Text(CleanPlayerName(TextOr(basic, "away_player", "Player B")))
    && (NeedsRound(basic) ==> exists n :: n in RoundNames && Lookup(ev, "round") == Text(n))
    && (!NeedsRound(basic) ==> Lookup(ev, "round") == Lookup(basic, "round"))
    && Lookup(ev, "round") != Text("46")
  }

  lemma EnhancedNamesAndRound(basic: Event, rnd: Random, p: nat)
    requires WellFormed(basic)
    ensures DemoNamesAndRound(basic, EnhanceDemoEvent(basic, rnd, p).0)
  {
    EnhanceDemoEventNames(basic, rnd, p);
    EnhanceDemoEventRound(basic, rnd, p);
    NamesAndRoundOf(basic, EnhanceDemoEvent(basic, rnd, p).0);
  }

  lemma NamesAndRoundOf(basic: Event, ev: Event)
    requires TextOrAbsent(basic, "home_player") && TextOrAbsent(basic, "away_player")
    requires "home_player" in ev && "away_player" in ev
    requires ev["home_player"] == Text(CleanPlayerName(TextOr(basic, "home_player", "Player A")))
    requires ev["away_player"] == Text(CleanPlayerName(TextOr(basic, "away_player", "Player B")))
    requires NeedsRound(basic) ==> exists n :: n in RoundNames && Lookup(ev, "round") == Text(n)
    requires !NeedsRound(basic) ==> Lookup(ev, "round") == Lookup(basic, "round")
    ensures DemoNamesAndRound(basic, ev)
  {
    RoundNamesNot46();
    assert Lookup(ev, "round") != Text("46") by {
      if NeedsRound(basic) {
        var n :| n in RoundNames && Lookup(ev, "round") == Text(n);
      }
    }
  }

  /** With no details anywhere, every enriched event has its kept event's
      names cleaned and a round that is never '46'. */
  lemma EnrichedWithoutDetailsFields(events: seq<Record>, process: Record -> Event, env: Env, fetch: Fetcher, rnd: Random, pos: nat)
    requires SoundProcess(process)
    requires forall id :: fetch(id) == NotFound
    ensures var out := EnrichedBy(events, process, env, fetch, rnd, pos).0;
      var kept := KeptBy(events, process);
      && |out| == |kept|
      && forall k :: 0 <= k < |out| ==> WellFormed(kept[k]) && DemoNamesAndRound(kept[k], out[k])
  {
    EnrichedWithoutDetails(events, process, env, fetch, rnd, pos);
    var kept := KeptBy(events, process);
    var out := EnrichedBy(events, process, env, fetch, rnd, pos).0;
    forall k | 0 <= k < |out|
      ensures DemoNamesAndRound(kept[k], out[k])
    {
      var p :| out[k] == EnhanceDemoEvent(kept[k], rnd, p).0;
      EnhancedNamesAndRound(kept[k], rnd, p);
    }
  }
}

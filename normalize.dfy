/** process_event, _create_fallback_event and process_events of
    TennisDataProcessor: one provider record becomes one canonical event, and
    a list of records becomes the list of those canonical events that carry
    an id. */
module Normalize {
  import opened Wrappers
  import opened Values
  import opened Extract

  /** event.get('idEvent') or event.get('id') */
  function SourceId(e: Record): Val {
    Or(Get(e, "idEvent"), Get(e, "id"))
  }

  function RoundField(r: Option<string>): (f: Field)
    ensures f == Plain(Null) || (f.Plain? && f.v.Str?)
  {
    match r
    case None => Plain(Null)
    case Some(s) => Text(s)
  }

  function ScoreField(s: Option<Score>): (f: Field)
    ensures FieldTruthy(f) <==> s.Some?
  {
    match s
    case None => Plain(Null)
    case Some(sc) => ScoreJson(sc)
  }

  /** The keys every canonical event has. */
  const CoreKeys: set<string> :=
    {"id", "external_event_id", "home_player", "away_player", "league", "round",
     "start_time", "status", "score_json"}

  /** Some extractor raises on this record. */
  predicate Raises(e: Record, env: Env) {
    || ReadsNonText(e, HomeKeys) || ReadsNonText(e, AwayKeys) || LeagueReadsNonText(e)
    || MapStatus(e, env).Raised?
  }

  /** The nine fields every canonical event has, from their parts. */
  function CoreEvent(id: Val, home: string, away: string, league: string, round: Option<string>,
                     start: string, status: Status, score: Option<Score>): (ev: Event)
    ensures WellFormed(ev) && ev.Keys == CoreKeys && ev["id"] == Plain(id)
  {
    map[
      "id" := Plain(id),
      "external_event_id" := Plain(id),
      "home_player" := Text(home),
      "away_player" := Text(away),
      "league" := Text(league),
      "round" := RoundField(round),
      "start_time" := Text(start),
      "status" := Text(status.Name()),
      "score_json" := ScoreField(score)
    ]
  }

  /** `if v: ev[key] = v` */
  function WithTruthy(ev: Event, key: string, v: Val): (r: Event)
    ensures r.Keys == ev.Keys + (if Truthy(v) then {key} else {})
    ensures Truthy(v) ==> r[key] == Plain(v)
    ensures forall k :: k in ev && k != key ==> r[k] == ev[k]
    ensures !Truthy(v) ==> r == ev
  {
    if Truthy(v) then ev[key := Plain(v)] else ev
  }

  /** Fields outside the nine core ones do not affect well-formedness. */
  lemma WellFormedBeyondCore(ev: Event, r: Event)
    requires WellFormed(ev) && CoreKeys <= ev.Keys && CoreKeys <= r.Keys
    requires forall k :: k in CoreKeys ==> r[k] == ev[k]
    ensures WellFormed(r)
  {
  }

  /** A canonical event from its parts, with 'venue' and 'city' added when
      they are truthy. */
  function CanonicalEvent(id: Val, home: string, away: string, league: string, round: Option<string>,
                          start: string, status: Status, score: Option<Score>, venue: Val, city: Val): (ev: Event)
    ensures WellFormed(ev) && ev["id"] == Plain(id)
    ensures ev.Keys == CoreKeys + (if Truthy(venue) then {"venue"} else {}) + (if Truthy(city) then {"city"} else {})
    ensures Truthy(venue) ==> ev["venue"] == Plain(venue)
    ensures Truthy(city) ==> ev["city"] == Plain(city)
  {
    var core := CoreEvent(id, home, away, league, round, start, status, score);
    PlaceFields(core, venue, city);
    WithTruthy(WithTruthy(core, "venue", venue), "city", city)
  }

  /** Adding a truthy venue and city to a core event keeps it well-formed. */
  lemma PlaceFields(core: Event, venue: Val, city: Val)
    requires WellFormed(core) && core.Keys == CoreKeys
    ensures var ev := WithTruthy(WithTruthy(core, "venue", venue), "city", city);
      && WellFormed(ev) && ev["id"] == core["id"]
      && ev.Keys == CoreKeys + (if Truthy(venue) then {"venue"} else {}) + (if Truthy(city) then {"city"} else {})
      && (Truthy(venue) ==> ev["venue"] == Plain(venue))
      && (Truthy(city) ==> ev["city"] == Plain(city))
  {
    var ev := WithTruthy(WithTruthy(core, "venue", venue), "city", city);
    assert "venue" !in CoreKeys && "city" !in CoreKeys;
    WellFormedBeyondCore(core, ev);
  }

  /** The body of the try block of process_event: Raised when an extractor
      raises, else the canonical event of the extracted parts. */
  function BuildEvent(e: Record, env: Env): (r: Outcome<Event>)
    ensures r.Raised? <==> Raises(e, env)
  {
    var home :- ExtractHomePlayer(e);
    var away :- ExtractAwayPlayer(e);
    var league :- ExtractLeague(e);
    var status :- MapStatus(e, env);
    Ok(CanonicalEvent(SourceId(e), home, away, league, ExtractRound(e), FormatDatetime(e, env),
                      status, ExtractScore(e), Get(e, "strVenue"), Get(e, "strCity")))
  }

  /** What an event built without raising holds: the extracted parts. */
  lemma BuiltEvent(e: Record, env: Env)
    requires !Raises(e, env)
    ensures BuildEvent(e, env) == Ok(CanonicalEvent(SourceId(e), ExtractHomePlayer(e).value,
              ExtractAwayPlayer(e).value, ExtractLeague(e).value, ExtractRound(e), FormatDatetime(e, env),
              MapStatus(e, env).value, ExtractScore(e), Get(e, "strVenue"), Get(e, "strCity")))
  {
  }

  /** _create_fallback_event: the record's id (or 'unknown'), unknown players,
      league 'Tennis', no round, the current time, 'Scheduled' and no score. */
  function FallbackEvent(e: Record, env: Env): (ev: Event)
    ensures WellFormed(ev) && HasId(ev) && ev.Keys == CoreKeys
    ensures Truthy(SourceId(e)) ==> ev["id"] == Plain(SourceId(e))
    ensures !Truthy(SourceId(e)) ==> ev["id"] == Text("unknown")
    ensures ev["external_event_id"] == ev["id"]
    ensures ev["home_player"] == ev["away_player"] == Text(UnknownPlayer)
    ensures ev["league"] == Text("Tennis")
    ensures ev["start_time"] == Text(env.isoFormat(Now(env)))
    ensures ev["status"] == Text(Scheduled.Name()) && ev["score_json"] == Plain(Null) && ev["round"] == Plain(Null)
  {
    var id := Plain(Or(SourceId(e), Str("unknown")));
    map[
      "id" := id,
      "external_event_id" := id,
      "home_player" := Text(UnknownPlayer),
      "away_player" := Text(UnknownPlayer),
      "league" := Text("Tennis"),
      "round" := Plain(Null),
      "start_time" := Text(env.isoFormat(Now(env))),
      "status" := Text(Scheduled.Name()),
      "score_json" := Plain(Null)
    ]
  }

  /** process_event: {} for an empty record; the built event; the fallback
      event when an extractor raises. */
  function ProcessEvent(e: Record, env: Env): (ev: Event)
    ensures ev == map[] <==> e == map[]
    ensures e != map[] ==> WellFormed(ev)
    ensures e != map[] && Raises(e, env) ==> ev == FallbackEvent(e, env)
    ensures e != map[] && !Raises(e, env) ==> ev["id"] == Plain(SourceId(e))
  {
    if e == map[] then map[]
    else if Raises(e, env) then FallbackEvent(e, env)
    else
      BuiltEvent(e, env);
      BuildEvent(e, env).value
  }

  /** Which records survive: a non-empty record survives when it has a truthy
      id, and also, whatever its id, when an extractor raises on it, whose
      fallback event always has one ('unknown' at worst). */
  lemma ProcessEventKeptIff(e: Record, env: Env)
    ensures HasId(ProcessEvent(e, env)) <==> e != map[] && (Truthy(SourceId(e)) || Raises(e, env))
  {
  }

  /** Venue and city are copied exactly when the record has them truthy and
      nothing raises. */
  lemma ProcessEventVenue(e: Record, env: Env)
    requires e != map[]
    ensures "venue" in ProcessEvent(e, env) <==> Truthy(Get(e, "strVenue")) && !Raises(e, env)
    ensures "city" in ProcessEvent(e, env) <==> Truthy(Get(e, "strCity")) && !Raises(e, env)
    ensures "venue" in ProcessEvent(e, env) ==> ProcessEvent(e, env)["venue"] == Plain(Get(e, "strVenue"))
    ensures "city" in ProcessEvent(e, env) ==> ProcessEvent(e, env)["city"] == Plain(Get(e, "strCity"))
  {
    var ev := ProcessEvent(e, env);
    if Raises(e, env) {
      assert ev.Keys == CoreKeys;
      assert "venue" !in CoreKeys && "city" !in CoreKeys;
    } else {
      BuiltEvent(e, env);
      CanonicalPlace(ev, SourceId(e), ExtractHomePlayer(e).value, ExtractAwayPlayer(e).value,
        ExtractLeague(e).value, ExtractRound(e), FormatDatetime(e, env), MapStatus(e, env).value,
        ExtractScore(e), Get(e, "strVenue"), Get(e, "strCity"));
    }
  }

  lemma CanonicalPlace(ev: Event, id: Val, home: string, away: string, league: string, round: Option<string>,
                       start: string, status: Status, score: Option<Score>, venue: Val, city: Val)
    requires ev == CanonicalEvent(id, home, away, league, round, start, status, score, venue, city)
    ensures "venue" in ev <==> Truthy(venue)
    ensures "city" in ev <==> Truthy(city)
    ensures "venue" in ev ==> ev["venue"] == Plain(venue)
    ensures "city" in ev ==> ev["city"] == Plain(city)
  {
    assert "venue" !in CoreKeys && "city" !in CoreKeys;
  }

  // ---------------------------------------------------------------- lists

  /** The loop of process_events, for any per-record processing: the
      processed records that have an id, in input order. */
  function KeptBy(events: seq<Record>, process: Record -> Event): (out: seq<Event>)
    ensures |out| <= |events|
  {
    if events == [] then []
    else
      var rest := KeptBy(events[..|events| - 1], process);
      var ev := process(events[|events| - 1]);
      if HasId(ev) then rest + [ev] else rest
  }

  /** The positions, in the input, of the records that loop keeps. */
  function KeptIndices(events: seq<Record>, process: Record -> Event): seq<nat> {
    if events == [] then []
    else
      var rest := KeptIndices(events[..|events| - 1], process);
      if HasId(process(events[|events| - 1])) then rest + [|events| - 1] else rest
  }

  /** That loop is an order-preserving filter: its output is the processed
      records at strictly increasing positions, and a position is among them
      exactly when its processed record has an id. */
  lemma {:induction false} KeptIsFilter(events: seq<Record>, process: Record -> Event)
    ensures var idx := KeptIndices(events, process);
      && |idx| == |KeptBy(events, process)|
      && (forall k :: 0 <= k < |idx| ==>
            idx[k] < |events| && KeptBy(events, process)[k] == process(events[idx[k]]))
      && (forall k, l :: 0 <= k < l < |idx| ==> idx[k] < idx[l])
      && (forall i :: 0 <= i < |events| ==> (i in idx <==> HasId(process(events[i]))))
  {
    if events != [] {
      var init := events[..|events| - 1];
      KeptIsFilter(init, process);
      assert forall i :: 0 <= i < |init| ==> init[i] == events[i];
    }
  }

  /** Filtering a list piece by piece gives the same result as filtering it whole. */
  lemma {:induction false} KeptAppend(a: seq<Record>, b: seq<Record>, process: Record -> Event)
    ensures KeptBy(a + b, process) == KeptBy(a, process) + KeptBy(b, process)
    decreases |b|
  {
    if b == [] {
      assert a + b == a;
    } else {
      var init, last := b[..|b| - 1], b[|b| - 1];
      var ai := a + init;
      var ev := process(last);
      KeptAppend(a, init, process);
      assert b == init + [last];
      assert a + b == ai + [last];
      KeptPush(ai, last, process);
      KeptPush(init, last, process);
      var ka, ki := KeptBy(a, process), KeptBy(init, process);
      if HasId(ev) {
        calc {
          KeptBy(a + b, process);
          KeptBy(ai, process) + [ev];
          (ka + ki) + [ev];
          ka + (ki + [ev]);
          ka + KeptBy(b, process);
        }
      } else {
        calc {
          KeptBy(a + b, process);
          KeptBy(ai, process);
          ka + ki;
          ka + KeptBy(b, process);
        }
      }
    }
  }

  lemma KeptPush(s: seq<Record>, last: Record, process: Record -> Event)
    ensures var ev := process(last);
      KeptBy(s + [last], process) == if HasId(ev) then KeptBy(s, process) + [ev] else KeptBy(s, process)
  {
    assert (s + [last])[..|s|] == s;
  }

  lemma KeptLast(s: seq<Record>, process: Record -> Event)
    requires s != []
    ensures var ev := process(s[|s| - 1]);
      KeptBy(s, process) == if HasId(ev) then KeptBy(s[..|s| - 1], process) + [ev] else KeptBy(s[..|s| - 1], process)
  {
  }

  /** The events process_events returns for a list of records: each is some
      record processed, well-formed and with an id. */
  function KeptEvents(events: seq<Record>, env: Env): (out: seq<Event>)
    ensures |out| <= |events|
    ensures forall k :: 0 <= k < |out| ==> exists i :: 0 <= i < |events| && out[k] == ProcessEvent(events[i], env)
    ensures forall k :: 0 <= k < |out| ==> WellFormed(out[k]) && HasId(out[k])
  {
    var process := Processor(env);
    var out := KeptBy(events, process);
    KeptHaveIds(events, process);
    KeptAreProcessed(events, process);
    forall k | 0 <= k < |out|
      ensures WellFormed(out[k]) && HasId(out[k])
      ensures exists i :: 0 <= i < |events| && out[k] == ProcessEvent(events[i], env)
    {
      var i :| 0 <= i < |events| && out[k] == process(events[i]);
      assert out[k] == ProcessEvent(events[i], env);
      assert events[i] != map[];
    }
    out
  }

  /** process_event with the environment fixed. */
  function Processor(env: Env): Record -> Event {
    e => ProcessEvent(e, env)
  }

  lemma {:induction false} KeptHaveIds(events: seq<Record>, process: Record -> Event)
    ensures forall k :: 0 <= k < |KeptBy(events, process)| ==> HasId(KeptBy(events, process)[k])
  {
    if events != [] {
      KeptHaveIds(events[..|events| - 1], process);
    }
  }

  lemma {:induction false} KeptAreProcessed(events: seq<Record>, process: Record -> Event)
    ensures forall k :: 0 <= k < |KeptBy(events, process)| ==>
      exists i :: 0 <= i < |events| && KeptBy(events, process)[k] == process(events[i])
  {
    KeptIsFilter(events, process);
    var idx := KeptIndices(events, process);
    forall k | 0 <= k < |KeptBy(events, process)|
      ensures exists i :: 0 <= i < |events| && KeptBy(events, process)[k] == process(events[i])
    {
      assert KeptBy(events, process)[k] == process(events[idx[k]]);
    }
  }

  /** One more record: the loop keeps its processed event when that has an id. */
  lemma KeptSnoc(events: seq<Record>, i: nat, process: Record -> Event)
    requires i < |events|
    ensures KeptBy(events[..i + 1], process) ==
      if HasId(process(events[i])) then KeptBy(events[..i], process) + [process(events[i])]
      else KeptBy(events[..i], process)
  {
    assert events[..i + 1][..i] == events[..i];
  }

  /** process_events */
  method ProcessEvents(events: seq<Record>, env: Env) returns (out: seq<Event>)
    ensures out == KeptEvents(events, env)
  {
    if events == [] {
      return [];
    }
    out := [];
    var i := 0;
    while i < |events|
      invariant 0 <= i <= |events|
      invariant out == KeptBy(events[..i], Processor(env))
    {
      KeptSnoc(events, i, Processor(env));
      var ev := ProcessEvent(events[i], env);
      assert ev == Processor(env)(events[i]);
      if HasId(ev) {
        out := out + [ev];
      }
      i := i + 1;
    }
    assert events[..i] == events;
  }
}

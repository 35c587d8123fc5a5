/** The loosely typed values of the provider's records and of the canonical
    events the data processor builds from them. */
module Values {
  import opened Wrappers
  import opened PyStr

  /** A scalar value of a provider record, as JSON delivers it. */
  datatype Val = Null | Str(s: string) | Int(i: int)

  /** A provider record: a dict from field names to scalar values. */
  type Record = map<string, Val>

  /** record.get(key): None for a missing key. */
  function Get(r: Record, key: string): (v: Val)
    ensures key !in r ==> v == Null
  {
    if key in r then r[key] else Null
  }

  /** record.get(key, default) */
  function GetOr(r: Record, key: string, default: Val): (v: Val)
    ensures key !in r ==> v == default
  {
    if key in r then r[key] else default
  }

  /** Python truthiness, as `if v:` and `v or w` see it. */
  predicate Truthy(v: Val) {
    match v
    case Null => false
    case Str(s) => s != []
    case Int(i) => i != 0
  }

  /** `a or b`: the first operand if it is truthy, else the second. */
  function Or(a: Val, b: Val): (r: Val)
    ensures Truthy(r) <==> Truthy(a) || Truthy(b)
    ensures r == a || r == b
    ensures Truthy(a) ==> r == a
    ensures !Truthy(a) ==> r == b
  {
    if Truthy(a) then a else b
  }

  /** str(v), also what an f-string shows. */
  function ToStr(v: Val): string {
    match v
    case Null => "None"
    case Str(s) => s
    case Int(i) => IntToStr(i)
  }

  /** int(v); None where Python raises ValueError or TypeError. */
  function ToInt(v: Val): Option<int> {
    match v
    case Null => None
    case Str(s) => ParseInt(s)
    case Int(i) => Some(i)
  }

  /** For an int, int(str(v)) gives the int back. */
  lemma ToIntOfToStr(v: Val)
    requires v.Int?
    ensures ToInt(Str(ToStr(v))) == ToInt(v)
  {
    ParseIntOfIntToStr(v.i);
  }

  /** The first element of xs that satisfies p, as an index; |xs| if none does.
      Every candidate-list search of the processor (`for x in options: if ...:
      return`) is this search. */
  function FirstIndex<T>(xs: seq<T>, p: T -> bool): (k: nat)
    ensures k <= |xs|
    ensures forall j :: 0 <= j < k ==> !p(xs[j])
    ensures k < |xs| ==> p(xs[k])
  {
    if xs == [] then 0 else if p(xs[0]) then 0 else 1 + FirstIndex(xs[1..], p)
  }

  /** Index, in keys, of the first key whose value in r is truthy; |keys| if none. */
  function FirstTruthy(r: Record, keys: seq<string>): (k: nat)
    ensures k <= |keys|
    ensures forall j :: 0 <= j < k ==> !Truthy(Get(r, keys[j]))
    ensures k < |keys| ==> Truthy(Get(r, keys[k]))
  {
    FirstIndex(keys, key => Truthy(Get(r, key)))
  }

  // ---------------------------------------------------------------- time

  /** A datetime: an instant in microseconds, and its UTC offset when it is
      offset-aware (None for a naive datetime). */
  datatype DateTime = DateTime(micros: int, utcOffset: Option<int>)

  /** What the processor takes from its environment: the current (naive,
      local) time, datetime.fromisoformat (None where it raises ValueError)
      and datetime.isoformat. */
  datatype Env = Env(now: int, fromIsoFormat: string -> Option<DateTime>, isoFormat: DateTime -> string)

  function Now(env: Env): DateTime {
    DateTime(env.now, None)
  }

  // ---------------------------------------------------------------- events

  /** The canonical match status. */
  datatype Status = Scheduled | InPlay | Finished {
    function Name(): (s: string)
      ensures s in {"Scheduled", "In Play", "Finished"}
    {
      match this
      case Scheduled => "Scheduled"
      case InPlay => "In Play"
      case Finished => "Finished"
    }
  }

  /** The dict stored under 'score_json'. */
  datatype Score =
    | SetCount(homeSets: int, awaySets: int, matchStatus: Val)
      // {'home_sets', 'away_sets', 'match_status'}
    | RawScore(rawScore: Val, matchStatus: Val)
      // {'raw_score', 'match_status'}
    | Synthetic(homeSets: int, awaySets: int, setScores: seq<string>, matchStatus: Val)
      // {'home_sets', 'away_sets', 'set_scores', 'match_status'}, from the demo generator

  /** A value of a canonical event: a scalar, or the score dict. */
  datatype Field = Plain(v: Val) | ScoreJson(score: Score)

  /** A canonical event: a dict from field names to values. */
  type Event = map<string, Field>

  /** event.get(key) */
  function Lookup(ev: Event, key: string): (f: Field)
    ensures key !in ev ==> f == Plain(Null)
  {
    if key in ev then ev[key] else Plain(Null)
  }

  /** Python truthiness of an event value; a score dict is never empty. */
  predicate FieldTruthy(f: Field) {
    match f
    case Plain(v) => Truthy(v)
    case ScoreJson(_) => true
  }

  function Text(s: string): Field {
    Plain(Str(s))
  }

  /** The event has a truthy 'id', the condition for keeping it. */
  predicate HasId(ev: Event) {
    FieldTruthy(Lookup(ev, "id"))
  }

  /** The key holds a str. */
  predicate IsText(ev: Event, key: string) {
    key in ev && ev[key].Plain? && ev[key].v.Str?
  }

  /** The key is missing or holds a str (what event.get(key, default).split() needs). */
  predicate TextOrAbsent(ev: Event, key: string) {
    key !in ev || (ev[key].Plain? && ev[key].v.Str?)
  }

  /** The shape of every event the processor builds from a non-empty record. */
  predicate WellFormed(ev: Event) {
    && "id" in ev && ev["id"].Plain?
    && "external_event_id" in ev && ev["external_event_id"] == ev["id"]
    && IsText(ev, "home_player") && IsText(ev, "away_player")
    && IsText(ev, "league") && IsText(ev, "start_time")
    && "round" in ev && (ev["round"] == Plain(Null) || IsText(ev, "round"))
    && "status" in ev
    && (ev["status"] == Text(Scheduled.Name()) || ev["status"] == Text(InPlay.Name())
        || ev["status"] == Text(Finished.Name()))
    && "score_json" in ev && (ev["score_json"] == Plain(Null) || ev["score_json"].ScoreJson?)
  }
}

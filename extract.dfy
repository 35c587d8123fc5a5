/** The field extractors of TennisDataProcessor (app/data_processor.py):
    home and away player, league, round, start time, status and score, each
    read from a fixed list of candidate fields of a provider record.

    An extractor that would raise in Python (calling .strip(), .split() or
    .lower() on an int, or `in` on an int, or subtracting an offset-aware
    datetime from the naive current time) returns Raised. */
module Extract {
  import opened Wrappers
  import opened PyStr
  import opened Values

  const HomeKeys: seq<string> := ["strHomeTeam", "strPlayer", "strHomePlayer"]
  const AwayKeys: seq<string> := ["strAwayTeam", "strOpponent", "strAwayPlayer"]
  const LeagueKeys: seq<string> := ["strLeague", "strSeason", "strTournament", "strCompetition"]
  const RoundKeys: seq<string> := ["strRound", "intRound", "strStage"]
  const DateKeys: seq<string> := ["strTimestamp", "dateEvent", "strDate", "strTime"]
  const StatusKeys: seq<string> := ["strStatus", "strProgress", "strGameStatus"]
  const ScoreTextKeys: seq<string> := ["strScore", "strResult"]
  const Separators: seq<string> := [" vs ", " VS ", " v ", " V "]
  const InPlayKeywords: seq<string> :=
    ["live", "playing", "in play", "in progress", "1st set", "2nd set", "3rd set",
     "final set", "set 1", "set 2", "set 3", "tie break"]
  const FinishedKeywords: seq<string> :=
    ["finished", "ft", "final", "completed", "ended", "won", "lost"]
  const UnknownPlayer: string := "Unknown Player"
  const DefaultLeague: string := "ATP Tour"
  /** One hour in microseconds. */
  const Hour: int := 3600 * 1000000

  /** Neither end of s is whitespace. */
  predicate Trimmed(s: string) {
    s == [] || (!IsSpace(s[0]) && !IsSpace(s[|s| - 1]))
  }

  // ---------------------------------------------------------------- players

  /** event.get('strEvent', '') */
  function Title(e: Record): Val {
    GetOr(e, "strEvent", Str(""))
  }

  /** Index of the first separator, in list order, that occurs in the title. */
  function SeparatorIndex(title: string): (k: nat)
    ensures k <= |Separators|
    ensures forall j :: 0 <= j < k ==> !Contains(title, Separators[j])
    ensures k < |Separators| ==> Contains(title, Separators[k])
  {
    FirstIndex(Separators, sep => Contains(title, sep))
  }

  /** parts[0] and parts[1] of title.split(sep), for the first separator that
      occurs in the title; None when none does. */
  function TitleSides(title: string): (r: Option<(string, string)>)
    ensures r.None? <==> forall j :: 0 <= j < |Separators| ==> !Contains(title, Separators[j])
    ensures r.Some? ==> exists k ::
      && 0 <= k < |Separators| && Contains(title, Separators[k])
      && (forall j :: 0 <= j < k ==> !Contains(title, Separators[j]))
      && r.value == SplitTwo(title, Separators[k])
  {
    var k := SeparatorIndex(title);
    if k == |Separators| then None else Some(SplitTwo(title, Separators[k]))
  }

  /** The home player named in the part of a title before the separator:
      the words after the first two (a tournament prefix) when there are more
      than two, else the whole stripped part. */
  function HomeFromPrefix(before: string): string {
    var home := Strip(before);
    var words := Words(home);
    if |words| > 2 then Join(" ", words[2..]) else home
  }

  /** The player extractor would call a str method, or `in`, on an int: the
      first truthy candidate field is not a str, or there is none and the
      truthy title is not a str. */
  predicate ReadsNonText(e: Record, keys: seq<string>) {
    var k := FirstTruthy(e, keys);
    if k < |keys| then !Get(e, keys[k]).Str? else Truthy(Title(e)) && !Title(e).Str?
  }

  /** The player named by the first truthy candidate field, stripped, or else
      the one a side of the title names, or else 'Unknown Player'. */
  function ExtractPlayer(e: Record, keys: seq<string>, home: bool): (r: Outcome<string>)
    ensures r.Raised? <==> ReadsNonText(e, keys)
    ensures r.Ok? ==> Trimmed(r.value)
  {
    var k := FirstTruthy(e, keys);
    if k < |keys| then
      match Get(e, keys[k])
      case Str(s) => Ok(Strip(s))
      case _ => Raised
    else
      var title := Title(e);
      if !Truthy(title) then Ok(UnknownPlayer)
      else if !title.Str? then Raised
      else
        match TitleSides(title.s)
        case None => Ok(UnknownPlayer)
        case Some(sides) =>
          HomeFromPrefixTrimmed(sides.0);
          Ok(if home then HomeFromPrefix(sides.0) else Strip(sides.1))
  }

  /** _extract_home_player */
  function ExtractHomePlayer(e: Record): (r: Outcome<string>)
    ensures r.Raised? <==> ReadsNonText(e, HomeKeys)
    ensures r.Ok? ==> Trimmed(r.value)
  {
    ExtractPlayer(e, HomeKeys, true)
  }

  /** _extract_away_player */
  function ExtractAwayPlayer(e: Record): (r: Outcome<string>)
    ensures r.Raised? <==> ReadsNonText(e, AwayKeys)
    ensures r.Ok? ==> Trimmed(r.value)
  {
    ExtractPlayer(e, AwayKeys, false)
  }

  lemma {:induction false} JoinEnds(ws: seq<string>)
    requires |ws| >= 1 && forall k :: 0 <= k < |ws| ==> ws[k] != []
    ensures var j := Join(" ", ws);
      && |j| >= 1 && j[0] == ws[0][0]
      && j[|j| - 1] == ws[|ws| - 1][|ws[|ws| - 1]| - 1]
  {
    if |ws| > 1 {
      JoinEnds(ws[1..]);
    }
  }

  lemma HomeFromPrefixTrimmed(before: string)
    ensures Trimmed(HomeFromPrefix(before))
  {
    var words := Words(Strip(before));
    if |words| > 2 {
      JoinEnds(words[2..]);
    }
  }

  lemma HomeFromPrefixWords(before: string)
    requires |Words(Strip(before))| > 2
    ensures Words(HomeFromPrefix(before)) == Words(Strip(before))[2..]
  {
    var words := Words(Strip(before));
    HomeOfWords(before, words);
    WordsOfJoinDrop(words, 2);
  }

  /** With no explicit field, a title whose part before the separator has
      more than two words names as home player exactly the words after the
      first two. */
  lemma HomePlayerDropsTournamentPrefix(e: Record, before: string, after: string)
    requires FirstTruthy(e, HomeKeys) == |HomeKeys|
    requires Title(e).Str? && TitleSides(Title(e).s) == Some((before, after))
    requires |Words(Strip(before))| > 2
    ensures ExtractHomePlayer(e).Ok?
    ensures Words(ExtractHomePlayer(e).value) == Words(Strip(before))[2..]
  {
    PlayerFromTitle(e, HomeKeys, true, Title(e).s, (before, after));
    HomeFromPrefixWords(before);
  }

  /** The first truthy candidate field names the player, stripped, whatever
      the title says. */
  lemma PlayerFromField(e: Record, keys: seq<string>, home: bool, k: nat, s: string)
    requires k < |keys| && FirstTruthy(e, keys) == k && Get(e, keys[k]) == Str(s)
    ensures ExtractPlayer(e, keys, home) == Ok(Strip(s))
  {
  }

  /** A player field of only spaces is truthy, and strips to the empty
      name: the home player can be ''. */
  lemma BlankHomeField(e: Record)
    requires Get(e, "strHomeTeam") == Str("  ")
    ensures ExtractHomePlayer(e) == Ok("")
  {
    assert HomeKeys[0] == "strHomeTeam";
    assert FirstTruthy(e, HomeKeys) == 0;
    PlayerFromField(e, HomeKeys, true, 0, "  ");
    assert AllSpace("  ");
  }

  /** With no truthy candidate field, and a title that is falsy (missing,
      None, 0 or '') or a text with no separator, the player is
      'Unknown Player'. */
  lemma PlayerWithoutSeparator(e: Record, keys: seq<string>, home: bool)
    requires FirstTruthy(e, keys) == |keys|
    requires || !Truthy(Title(e))
             || (Title(e).Str? && forall j :: 0 <= j < |Separators| ==> !Contains(Title(e).s, Separators[j]))
    ensures ExtractPlayer(e, keys, home) == Ok(UnknownPlayer)
  {
  }

  /** A home part of at most two words names the home player as it is, stripped. */
  lemma HomePlayerKeepsShortPrefix(e: Record, before: string, after: string)
    requires FirstTruthy(e, HomeKeys) == |HomeKeys|
    requires Title(e).Str? && TitleSides(Title(e).s) == Some((before, after))
    requires |Words(Strip(before))| <= 2
    ensures ExtractHomePlayer(e) == Ok(Strip(before))
  {
    PlayerFromTitle(e, HomeKeys, true, Title(e).s, (before, after));
  }

  /** With no truthy candidate field, a title with a separator names the player. */
  lemma PlayerFromTitle(e: Record, keys: seq<string>, home: bool, t: string, sides: (string, string))
    requires FirstTruthy(e, keys) == |keys| && Title(e) == Str(t) && TitleSides(t) == Some(sides)
    ensures ExtractPlayer(e, keys, home) == Ok(if home then HomeFromPrefix(sides.0) else Strip(sides.1))
  {
    assert t != [] by {
      var sep := Separators[SeparatorIndex(t)];
      assert Contains(t, sep);
      var i :| 0 <= i <= |t| && OccursAt(t, sep, i);
    }
  }

  // ---------------------------------------------------------------- league

  /** The league extractor would call a str method on an int. */
  predicate LeagueReadsNonText(e: Record) {
    var title := Title(e);
    if Truthy(title) && !title.Str? then true
    else if Truthy(title) && |Words(title.s)| >= 2 then false
    else
      var k := FirstTruthy(e, LeagueKeys);
      k < |LeagueKeys| && !Get(e, LeagueKeys[k]).Str?
  }

  /** _extract_league: the first two words of the title when it has at
      least two, else the first truthy league field stripped, else 'ATP Tour'. */
  function ExtractLeague(e: Record): (r: Outcome<string>)
    ensures r.Raised? <==> LeagueReadsNonText(e)
  {
    var title := Title(e);
    if Truthy(title) && !title.Str? then Raised
    else if Truthy(title) && |Words(title.s)| >= 2 then
      var words := Words(title.s);
      Ok(words[0] + " " + words[1])
    else
      var k := FirstTruthy(e, LeagueKeys);
      if k == |LeagueKeys| then Ok(DefaultLeague)
      else
        match Get(e, LeagueKeys[k])
        case Str(s) => Ok(Strip(s))
        case _ => Raised
  }

  /** A title of two or more words decides the league, whatever the league
      fields say: its first two words. */
  lemma LeagueFromTitle(e: Record)
    requires Title(e).Str? && |Words(Title(e).s)| >= 2
    ensures ExtractLeague(e).Ok?
    ensures Words(ExtractLeague(e).value) == Words(Title(e).s)[..2]
  {
    var words := Words(Title(e).s);
    LeagueOfTitleWords(e, Title(e).s, words);
    WordsOfFirstPair(words, ExtractLeague(e).value);
  }

  /** With a title of fewer than two words, the first truthy league field
      names the league, stripped. */
  lemma LeagueFromField(e: Record, k: nat, s: string)
    requires !Truthy(Title(e)) || (Title(e).Str? && |Words(Title(e).s)| < 2)
    requires k < |LeagueKeys| && FirstTruthy(e, LeagueKeys) == k && Get(e, LeagueKeys[k]) == Str(s)
    ensures ExtractLeague(e) == Ok(Strip(s))
  {
  }

  /** With a title of fewer than two words and no league field, the league is
      'ATP Tour'. */
  lemma LeagueDefault(e: Record)
    requires !Truthy(Title(e)) || (Title(e).Str? && |Words(Title(e).s)| < 2)
    requires forall j :: 0 <= j < |LeagueKeys| ==> !Truthy(Get(e, LeagueKeys[j]))
    ensures ExtractLeague(e) == Ok(DefaultLeague)
  {
  }

  // ---------------------------------------------------------------- round

  /** _extract_round: the first truthy round field, as str() and stripped;
      None when there is none. */
  function ExtractRound(e: Record): (r: Option<string>)
    ensures r.None? <==> forall j :: 0 <= j < |RoundKeys| ==> !Truthy(Get(e, RoundKeys[j]))
    ensures r.Some? ==> Trimmed(r.value)
    ensures r.Some? ==> exists j :: 0 <= j < |RoundKeys| && Truthy(Get(e, RoundKeys[j]))
                                   && (forall i :: 0 <= i < j ==> !Truthy(Get(e, RoundKeys[i])))
                                   && r.value == Strip(ToStr(Get(e, RoundKeys[j])))
  {
    var k := FirstTruthy(e, RoundKeys);
    if k == |RoundKeys| then None
    else
      var r := Strip(ToStr(Get(e, RoundKeys[k])));
      assert Truthy(Get(e, RoundKeys[k])) && (forall i :: 0 <= i < k ==> !Truthy(Get(e, RoundKeys[i])))
             && r == Strip(ToStr(Get(e, RoundKeys[k])));
      Some(r)
  }

  // ---------------------------------------------------------------- date and time

  /** The string handed to datetime.fromisoformat for one candidate: with 'Z'
      replaced by '+00:00' when it holds a 'T', with 'T12:00:00' appended when
      it is ten characters holding a '-', and as it is otherwise. */
  function IsoInput(s: string): (r: string)
    ensures Contains(s, "T") ==> r == ReplaceChar(s, 'Z', "+00:00") && 'Z' !in r
    ensures !Contains(s, "T") && |s| == 10 && Contains(s, "-") ==> |r| == 19 && r[..10] == s && r[10..] == "T12:00:00"
    ensures !Contains(s, "T") && !(|s| == 10 && Contains(s, "-")) ==> r == s
  {
    if Contains(s, "T") then
      ReplaceCharRemovesIt(s, 'Z', "+00:00");
      ReplaceOfChar(s, 'Z', "+00:00");
      Replace(s, "Z", "+00:00")
    else if |s| == 10 && Contains(s, "-") then s + "T12:00:00"
    else s
  }

  /** What parsing one candidate value yields: a str is pre-processed and
      parsed; anything else (falsy, or an int, where `'T' in v` raises a
      TypeError that is caught) yields nothing. */
  function ParseCandidate(v: Val, env: Env): Option<DateTime> {
    match v
    case Str(s) => if s == [] then None else env.fromIsoFormat(IsoInput(s))
    case _ => None
  }

  /** The candidate at index j of DateKeys is the first one that parses. */
  predicate FirstParsable(e: Record, env: Env, j: nat) {
    && j < |DateKeys|
    && ParseCandidate(Get(e, DateKeys[j]), env).Some?
    && forall i :: 0 <= i < j ==> ParseCandidate(Get(e, DateKeys[i]), env).None?
  }

  /** _parse_event_date: the datetime of the first candidate field that
      parses, or None when none does. */
  function ParseEventDate(e: Record, env: Env): (r: Option<DateTime>)
    ensures r.None? <==> forall j :: 0 <= j < |DateKeys| ==> ParseCandidate(Get(e, DateKeys[j]), env).None?
    ensures forall j: nat :: FirstParsable(e, env, j) ==> r == ParseCandidate(Get(e, DateKeys[j]), env)
  {
    var k := FirstIndex(DateKeys, key => ParseCandidate(Get(e, key), env).Some?);
    if k == |DateKeys| then None
    else
      assert FirstParsable(e, env, k);
      ParseCandidate(Get(e, DateKeys[k]), env)
  }

  /** _format_datetime: the isoformat of the first candidate field that
      parses, or of the current time when none does. */
  function FormatDatetime(e: Record, env: Env): (r: string)
    ensures forall j: nat :: FirstParsable(e, env, j) ==> r == env.isoFormat(ParseCandidate(Get(e, DateKeys[j]), env).value)
    ensures (forall j :: 0 <= j < |DateKeys| ==> ParseCandidate(Get(e, DateKeys[j]), env).None?) ==> r == env.isoFormat(Now(env))
  {
    match ParseEventDate(e, env)
    case Some(dt) => env.isoFormat(dt)
    case None => env.isoFormat(Now(env))
  }

  // ---------------------------------------------------------------- status

  /** Index of the first keyword that occurs in text; |keywords| when none does. */
  function KeywordIndex(text: string, keywords: seq<string>): (k: nat)
    ensures k <= |keywords|
    ensures forall j :: 0 <= j < k ==> !Contains(text, keywords[j])
    ensures k < |keywords| ==> Contains(text, keywords[k])
  {
    FirstIndex(keywords, kw => Contains(text, kw))
  }

  predicate HasKeyword(text: string, keywords: seq<string>) {
    KeywordIndex(text, keywords) < |keywords|
  }

  /** The status a field's text names, if it names one: in-play keywords are
      tested before finished ones. */
  function KeywordStatus(text: string): (r: Option<Status>)
    ensures r != Some(Scheduled)
    ensures r == Some(InPlay) <==> HasKeyword(Lower(text), InPlayKeywords)
    ensures r == Some(Finished) <==> !HasKeyword(Lower(text), InPlayKeywords) && HasKeyword(Lower(text), FinishedKeywords)
  {
    var low := Lower(text);
    if HasKeyword(low, InPlayKeywords) then Some(InPlay)
    else if HasKeyword(low, FinishedKeywords) then Some(Finished)
    else None
  }

  /** The status field at index i does not stop the scan: it is falsy, or a
      text that names no status. */
  predicate Undecided(e: Record, i: nat)
    requires i < |StatusKeys|
  {
    var v := Get(e, StatusKeys[i]);
    !Truthy(v) || (v.Str? && KeywordStatus(v.s).None?)
  }

  /** The status field at index i is truthy but not a str, so .lower() raises. */
  predicate RaisesAt(e: Record, i: nat)
    requires i < |StatusKeys|
  {
    var v := Get(e, StatusKeys[i]);
    Truthy(v) && !v.Str?
  }

  /** The status field at index i is a truthy text that names a status. */
  predicate NamesAt(e: Record, i: nat)
    requires i < |StatusKeys|
  {
    var v := Get(e, StatusKeys[i]);
    Truthy(v) && v.Str? && KeywordStatus(v.s).Some?
  }

  /** The scan from index `from` reaches index j: every field before it is undecided. */
  predicate Reaches(e: Record, from: nat, j: nat)
    requires j <= |StatusKeys|
  {
    forall i :: from <= i < j ==> Undecided(e, i)
  }

  /** The explicit-status scan from StatusKeys[from] on: the first truthy
      field whose text names a status decides; a truthy non-str field reached
      first raises (.lower() on an int); when every field is undecided there
      is no explicit status. */
  function ExplicitStatus(e: Record, from: nat): (r: Outcome<Option<Status>>)
    requires from <= |StatusKeys|
    ensures r.Ok? && r.value.Some? ==> r.value.value != Scheduled
    decreases |StatusKeys| - from
  {
    if from == |StatusKeys| then Ok(None)
    else
      var v := Get(e, StatusKeys[from]);
      if !Truthy(v) then ExplicitStatus(e, from + 1)
      else if !v.Str? then Raised
      else
        match KeywordStatus(v.s)
        case Some(st) => Ok(Some(st))
        case None => ExplicitStatus(e, from + 1)
  }

  /** The scan raises exactly when, before any field decides, it reaches a
      truthy field that is not a str. */
  lemma ExplicitStatusRaises(e: Record, from: nat)
    requires from <= |StatusKeys|
    ensures ExplicitStatus(e, from) == Raised <==>
              exists j :: from <= j < |StatusKeys| && RaisesAt(e, j) && Reaches(e, from, j)
  {
    var k := FirstDecider(e, from);
    ExplicitStatusSkipsTo(e, from, k);
    if k < |StatusKeys| {
      if RaisesAt(e, k) {
        ExplicitStatusRaisesHere(e, k);
      } else {
        ExplicitStatusStops(e, k);
      }
    }
    forall j | from <= j < |StatusKeys| && RaisesAt(e, j) && Reaches(e, from, j)
      ensures ExplicitStatus(e, from) == Raised
    {
      ExplicitStatusSkipsTo(e, from, j);
      ExplicitStatusRaisesHere(e, j);
    }
  }

  /** The scan finds no explicit status exactly when every field is undecided. */
  lemma ExplicitStatusNone(e: Record, from: nat)
    requires from <= |StatusKeys|
    ensures ExplicitStatus(e, from) == Ok(None) <==> Reaches(e, from, |StatusKeys|)
  {
    var k := FirstDecider(e, from);
    ExplicitStatusSkipsTo(e, from, k);
    if k < |StatusKeys| {
      if RaisesAt(e, k) {
        ExplicitStatusRaisesHere(e, k);
      } else {
        ExplicitStatusStops(e, k);
      }
    }
  }

  /** The first field from `from` on that is not undecided, or |StatusKeys|. */
  lemma {:induction false} FirstDecider(e: Record, from: nat) returns (k: nat)
    requires from <= |StatusKeys|
    ensures from <= k <= |StatusKeys| && Reaches(e, from, k)
    ensures k < |StatusKeys| ==> !Undecided(e, k)
    decreases |StatusKeys| - from
  {
    if from == |StatusKeys| || !Undecided(e, from) {
      k := from;
    } else {
      k := FirstDecider(e, from + 1);
    }
  }

  /** A truthy non-str field stops the scan by raising. */
  lemma ExplicitStatusRaisesHere(e: Record, i: nat)
    requires i < |StatusKeys| && RaisesAt(e, i)
    ensures ExplicitStatus(e, i) == Raised
  {
  }

  /** The first field that names a status, reached by the scan, decides it. */
  lemma ExplicitStatusNames(e: Record, from: nat, j: nat)
    requires from <= j < |StatusKeys| && NamesAt(e, j) && Reaches(e, from, j)
    ensures ExplicitStatus(e, from) == Ok(KeywordStatus(Get(e, StatusKeys[j]).s))
  {
    ExplicitStatusSkipsTo(e, from, j);
    ExplicitStatusStops(e, j);
  }

  /** The scan passes over every undecided field. */
  lemma {:induction false} ExplicitStatusSkipsTo(e: Record, from: nat, j: nat)
    requires from <= j <= |StatusKeys| && Reaches(e, from, j)
    ensures ExplicitStatus(e, from) == ExplicitStatus(e, j)
    decreases j - from
  {
    if from < j {
      ExplicitStatusSkips(e, from);
      ExplicitStatusSkipsTo(e, from + 1, j);
    }
  }

  /** An undecided field passes the scan on to the next one. */
  lemma ExplicitStatusSkips(e: Record, i: nat)
    requires i < |StatusKeys| && Undecided(e, i)
    ensures ExplicitStatus(e, i) == ExplicitStatus(e, i + 1)
  {
  }

  /** A field that names a status stops the scan with that status. */
  lemma ExplicitStatusStops(e: Record, i: nat)
    requires i < |StatusKeys| && NamesAt(e, i)
    ensures ExplicitStatus(e, i) == Ok(KeywordStatus(Get(e, StatusKeys[i]).s))
  {
  }

  /** Some result field is there: a home or away score that is not None,
      or a truthy result or score text. */
  predicate HasResult(e: Record) {
    || Get(e, "strHomeGoals") != Null || Get(e, "strAwayGoals") != Null
    || Truthy(Get(e, "strResult")) || Truthy(Get(e, "strScore"))
  }

  /** The date tier of _map_status: more than four hours past is Finished;
      more than one hour past with a result field is Finished; otherwise, or
      with no parsable date, Scheduled. Subtracting an offset-aware datetime
      from the naive current time raises. */
  function StatusFromDate(e: Record, env: Env): Outcome<Status> {
    match ParseEventDate(e, env)
    case None => Ok(Scheduled)
    case Some(dt) =>
      if dt.utcOffset.Some? then Raised
      else
        var elapsed := env.now - dt.micros;
        if elapsed > 4 * Hour then Ok(Finished)
        else if elapsed > Hour && HasResult(e) then Ok(Finished)
        else Ok(Scheduled)
  }

  /** _map_status: the first status field that decides gives the status, a
      truthy non-str field reached first raises, and with every field
      undecided the date tier decides. */
  function MapStatus(e: Record, env: Env): (r: Outcome<Status>)
    ensures forall j :: 0 <= j < |StatusKeys| && NamesAt(e, j) && Reaches(e, 0, j) ==>
              r == Ok(KeywordStatus(Get(e, StatusKeys[j]).s).value)
    ensures (exists j :: 0 <= j < |StatusKeys| && RaisesAt(e, j) && Reaches(e, 0, j)) ==> r == Raised
    ensures Reaches(e, 0, |StatusKeys|) ==> r == StatusFromDate(e, env)
  {
    ExplicitStatusRaises(e, 0);
    ExplicitStatusNone(e, 0);
    forall j | 0 <= j < |StatusKeys| && NamesAt(e, j) && Reaches(e, 0, j) {
      ExplicitStatusNames(e, 0, j);
    }
    var explicit :- ExplicitStatus(e, 0);
    match explicit
    case Some(st) => Ok(st)
    case None => StatusFromDate(e, env)
  }

  /** A 'final set' status is in play, although 'final' is a finished keyword:
      the in-play keywords are tested first. */
  lemma FinalSetIsInPlay(e: Record, env: Env, s: string)
    requires Get(e, "strStatus") == Str(s) && Contains(Lower(s), "final set")
    ensures MapStatus(e, env) == Ok(InPlay)
  {
    FinalSetKeyword(s);
    assert s != [] by {
      var i :| 0 <= i <= |Lower(s)| && OccursAt(Lower(s), "final set", i);
    }
    StatusFieldDecides(e, env, s, InPlay);
  }

  /** A non-empty 'strStatus' text that names a status decides the status. */
  lemma StatusFieldDecides(e: Record, env: Env, s: string, st: Status)
    requires Get(e, "strStatus") == Str(s) && s != [] && KeywordStatus(s) == Some(st)
    ensures MapStatus(e, env) == Ok(st)
  {
    StatusFieldFirst(e, s, st);
  }

  lemma StatusFieldFirst(e: Record, s: string, st: Status)
    requires Get(e, "strStatus") == Str(s) && s != [] && KeywordStatus(s) == Some(st)
    ensures ExplicitStatus(e, 0) == Ok(Some(st))
  {
    assert StatusKeys[0] == "strStatus";
  }

  /** Only a non-empty text names a status: every keyword is non-empty. */
  lemma KeywordTextNonEmpty(text: string)
    requires KeywordStatus(text).Some?
    ensures text != []
  {
    EmptyNamesNothing();
  }

  lemma EmptyNamesNothing()
    ensures KeywordStatus([]).None?
  {
    assert forall j :: 0 <= j < |FinishedKeywords| ==> FinishedKeywords[j] != [];
    assert forall j :: 0 <= j < |InPlayKeywords| ==> InPlayKeywords[j] != [];
    NoKeywordInEmpty(FinishedKeywords);
    NoKeywordInEmpty(InPlayKeywords);
    assert Lower([]) == [];
  }

  lemma NoKeywordInEmpty(keywords: seq<string>)
    requires forall j :: 0 <= j < |keywords| ==> keywords[j] != []
    ensures !HasKeyword([], keywords)
  {
    forall j | 0 <= j < |keywords|
      ensures !Contains([], keywords[j])
    {
      assert !OccursAt([], keywords[j], 0);
    }
  }

  /** With a falsy 'strStatus', a 'strProgress' text that names a status decides. */
  lemma StatusProgressDecides(e: Record, env: Env, s: string, st: Status)
    requires !Truthy(Get(e, "strStatus"))
    requires Get(e, "strProgress") == Str(s) && KeywordStatus(s) == Some(st)
    ensures MapStatus(e, env) == Ok(st)
  {
    ProgressNames(e, s, st);
  }

  lemma ProgressNames(e: Record, s: string, st: Status)
    requires !Truthy(Get(e, "strStatus"))
    requires Get(e, "strProgress") == Str(s) && KeywordStatus(s) == Some(st)
    ensures NamesAt(e, 1) && Reaches(e, 0, 1)
    ensures KeywordStatus(Get(e, StatusKeys[1]).s) == Some(st)
  {
    assert Get(e, StatusKeys[0]) == Get(e, "strStatus");
    assert Get(e, StatusKeys[1]) == Str(s);
    KeywordTextNonEmpty(s);
  }

  /** An int in 'strGameStatus', reached because the earlier fields are falsy,
      makes _map_status raise whatever the date. */
  lemma StatusRaisesOnInt(e: Record, env: Env, n: int)
    requires !Truthy(Get(e, "strStatus")) && !Truthy(Get(e, "strProgress"))
    requires Get(e, "strGameStatus") == Int(n) && n != 0
    ensures MapStatus(e, env) == Raised
  {
    assert StatusKeys[0] == "strStatus" && StatusKeys[1] == "strProgress" && StatusKeys[2] == "strGameStatus";
    assert Undecided(e, 0) && Undecided(e, 1);
    assert RaisesAt(e, 2) && Reaches(e, 0, 2);
  }

  lemma FinalSetKeyword(s: string)
    requires Contains(Lower(s), "final set")
    ensures KeywordStatus(s) == Some(InPlay)
  {
    assert InPlayKeywords[7] == "final set";
    assert KeywordIndex(Lower(s), InPlayKeywords) <= 7;
  }

  /** With no explicit status and a naive start time, the date tier decides:
      at more than four hours Finished; between one and four hours Finished
      exactly when a result field is present; at one hour or less Scheduled. */
  lemma StatusByElapsedTime(e: Record, env: Env, t: int)
    requires ExplicitStatus(e, 0) == Ok(None)
    requires ParseEventDate(e, env) == Some(DateTime(t, None))
    ensures env.now - t > 4 * Hour ==> MapStatus(e, env) == Ok(Finished)
    ensures Hour < env.now - t <= 4 * Hour ==> (MapStatus(e, env) == Ok(Finished) <==> HasResult(e))
    ensures env.now - t <= Hour ==> MapStatus(e, env) == Ok(Scheduled)
  {
  }

  /** With no explicit status, an offset-aware start time makes _map_status
      raise, and an unparsable one gives 'Scheduled'. */
  lemma StatusWithoutNaiveDate(e: Record, env: Env)
    requires ExplicitStatus(e, 0) == Ok(None)
    ensures ParseEventDate(e, env).None? ==> MapStatus(e, env) == Ok(Scheduled)
    ensures ParseEventDate(e, env).Some? && ParseEventDate(e, env).value.utcOffset.Some? ==> MapStatus(e, env).Raised?
  {
  }

  /** Finished stays Finished as time goes on: the same record, seen later,
      is not reported as Scheduled or In Play again. */
  lemma FinishedStaysFinished(e: Record, env: Env, later: Env)
    requires later.fromIsoFormat == env.fromIsoFormat && later.now >= env.now
    requires MapStatus(e, env) == Ok(Finished)
    ensures MapStatus(e, later) == Ok(Finished)
  {
    SameParse(e, env, later);
  }

  lemma SameParse(e: Record, env: Env, other: Env)
    requires other.fromIsoFormat == env.fromIsoFormat
    ensures ParseEventDate(e, other) == ParseEventDate(e, env)
  {
    assert forall v :: ParseCandidate(v, other) == ParseCandidate(v, env);
  }

  // ---------------------------------------------------------------- score

  /** strHomeGoals or intHomeScore */
  function HomeScore(e: Record): Val {
    Or(Get(e, "strHomeGoals"), Get(e, "intHomeScore"))
  }

  /** strAwayGoals or intAwayScore */
  function AwayScore(e: Record): Val {
    Or(Get(e, "strAwayGoals"), Get(e, "intAwayScore"))
  }

  /** strStatus or strProgress */
  function ScoreStatus(e: Record): Val {
    Or(Get(e, "strStatus"), Get(e, "strProgress"))
  }

  /** Both sides are there (not None) and int() converts both. */
  predicate NumericScore(e: Record) {
    HomeScore(e) != Null && AwayScore(e) != Null && ToInt(HomeScore(e)).Some? && ToInt(AwayScore(e)).Some?
  }

  /** _extract_score: the set count shape exactly when both sides are numeric;
      else the raw shape carrying the first truthy of strScore and strResult;
      else None. A non-numeric side never raises. */
  function ExtractScore(e: Record): (r: Option<Score>)
    ensures r.Some? && r.value.SetCount? <==> NumericScore(e)
    ensures r.Some? ==> !r.value.Synthetic? && r.value.matchStatus == ScoreStatus(e)
    ensures r.Some? && r.value.SetCount? ==>
      r.value.homeSets == ToInt(HomeScore(e)).value && r.value.awaySets == ToInt(AwayScore(e)).value
    ensures r.Some? && r.value.RawScore? ==>
      var k := FirstTruthy(e, ScoreTextKeys); k < |ScoreTextKeys| && r.value.rawScore == Get(e, ScoreTextKeys[k])
    ensures r.None? <==> !NumericScore(e) && forall j :: 0 <= j < |ScoreTextKeys| ==> !Truthy(Get(e, ScoreTextKeys[j]))
  {
    if NumericScore(e) then
      Some(SetCount(ToInt(HomeScore(e)).value, ToInt(AwayScore(e)).value, ScoreStatus(e)))
    else
      var k := FirstTruthy(e, ScoreTextKeys);
      if k < |ScoreTextKeys| then Some(RawScore(Get(e, ScoreTextKeys[k]), ScoreStatus(e))) else None
  }

  // ---------------------------------------------------------------- examples

  /** The title-splitting check of the service's test-extraction endpoint:
      'US Open Sinner vs Alcaraz' with league 'ATP World Tour' names Sinner at
      home, Alcaraz away and the league 'US Open'. */
  lemma SinnerAlcarazExample()
    ensures var e := map["strEvent" := Str("US Open Sinner vs Alcaraz"), "strLeague" := Str("ATP World Tour")];
      && ExtractHomePlayer(e) == Ok("Sinner")
      && ExtractAwayPlayer(e) == Ok("Alcaraz")
      && ExtractLeague(e) == Ok("US Open")
  {
    var e := map["strEvent" := Str("US Open Sinner vs Alcaraz"), "strLeague" := Str("ATP World Tour")];
    assert Title(e) == Str("US Open Sinner vs Alcaraz");
    assert FirstTruthy(e, HomeKeys) == |HomeKeys|;
    assert FirstTruthy(e, AwayKeys) == |AwayKeys|;
    ExamplePlayers(e);
    ExampleLeague(e);
  }

  lemma ExamplePlayers(e: Record)
    requires Title(e) == Str("US Open Sinner vs Alcaraz")
    requires FirstTruthy(e, HomeKeys) == |HomeKeys| && FirstTruthy(e, AwayKeys) == |AwayKeys|
    ensures ExtractHomePlayer(e) == Ok("Sinner") && ExtractAwayPlayer(e) == Ok("Alcaraz")
  {
    var t := "US Open Sinner vs Alcaraz";
    var sides := ("US Open Sinner", "Alcaraz");
    ExampleTitleSides();
    PlayerFromTitle(e, HomeKeys, true, t, sides);
    PlayerFromTitle(e, AwayKeys, false, t, sides);
    ExampleHome();
    ExampleAway();
  }

  lemma ExampleLeague(e: Record)
    requires Title(e) == Str("US Open Sinner vs Alcaraz")
    ensures ExtractLeague(e) == Ok("US Open")
  {
    var ws := ["US", "Open", "Sinner", "vs", "Alcaraz"];
    assert ws[0] + " " + ws[1] == "US Open";
    ExampleTitleWords();
    LeagueOfTitleWords(e, "US Open Sinner vs Alcaraz", ws);
  }

  lemma LeagueOfTitleWords(e: Record, t: string, ws: seq<string>)
    requires Title(e) == Str(t) && Words(t) == ws && |ws| >= 2
    ensures ExtractLeague(e) == Ok(ws[0] + " " + ws[1])
  {
    assert !AllSpace(t);
  }

  lemma ExampleTitleSides()
    ensures TitleSides("US Open Sinner vs Alcaraz") == Some(("US Open Sinner", "Alcaraz"))
  {
    var t := "US Open Sinner vs Alcaraz";
    var sep := " vs ";
    ExampleFind();
    assert Separators[0] == sep;
    assert SeparatorIndex(t) == 0;
    NotContainedForChar("Alcaraz", sep, 0);
    ExampleConcat();
    SplitTwoAt(t, sep, "US Open Sinner", "Alcaraz");
  }

  lemma ExampleConcat()
    ensures "US Open Sinner vs Alcaraz" == "US Open Sinner" + " vs " + "Alcaraz"
  {
  }

  lemma ExampleFind()
    ensures Find("US Open Sinner vs Alcaraz", " vs ") == 14
  {
    var t := "US Open Sinner vs Alcaraz";
    var sep := " vs ";
    assert OccursAt(t, sep, 14) by {
      assert t[14..18] == sep;
    }
    NoOccurrenceBefore(t, sep, 14, 1);
  }

  lemma ExampleAway()
    ensures Strip("Alcaraz") == "Alcaraz"
  {
    StripOfTrimmed("Alcaraz");
  }

  lemma ExampleHome()
    ensures HomeFromPrefix("US Open Sinner") == "Sinner"
  {
    var ws := ["US", "Open", "Sinner"];
    ExampleHomeWords();
    HomeOfWords("US Open Sinner", ws);
    assert ws[2..] == ["Sinner"];
  }

  lemma ExampleHomeWords()
    ensures Words(Strip("US Open Sinner")) == ["US", "Open", "Sinner"]
  {
    ExampleHomeStrip();
    ExampleHomeJoin();
    var a, b, c: string := "US", "Open", "Sinner";
    LettersHaveNoSpace(a);
    LettersHaveNoSpace(b);
    LettersHaveNoSpace(c);
    WordsOfThree(a, b, c);
  }

  /** A word of ASCII letters holds no whitespace. */
  lemma LettersHaveNoSpace(s: string)
    requires forall i :: 0 <= i < |s| ==> 'A' <= s[i] <= 'Z' || 'a' <= s[i] <= 'z'
    ensures NoSpace(s)
  {
  }

  /** Three words joined by single spaces split back into those words. */
  lemma WordsOfThree(a: string, b: string, c: string)
    requires a != [] && b != [] && c != []
    requires NoSpace(a) && NoSpace(b) && NoSpace(c)
    ensures Words(Join(" ", [a, b, c])) == [a, b, c]
  {
    WordsOfJoin([a, b, c]);
  }

  lemma ExampleHomeStrip()
    ensures Strip("US Open Sinner") == "US Open Sinner"
  {
    StripOfTrimmed("US Open Sinner");
  }

  lemma ExampleHomeJoin()
    ensures Join(" ", ["US", "Open", "Sinner"]) == "US Open Sinner"
  {
  }

  lemma HomeOfWords(before: string, ws: seq<string>)
    requires Words(Strip(before)) == ws && |ws| > 2
    ensures HomeFromPrefix(before) == Join(" ", ws[2..])
  {
  }

  lemma ExampleTitleWords()
    ensures Words("US Open Sinner vs Alcaraz") == ["US", "Open", "Sinner", "vs", "Alcaraz"]
  {
    var ws := ["US", "Open", "Sinner", "vs", "Alcaraz"];
    assert Join(" ", ws) == "US Open Sinner vs Alcaraz";
    WordsOfJoin(ws);
  }
}

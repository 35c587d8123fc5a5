/** enhance_demo_event and _generate_tennis_score of TennisDataProcessor: the
    synthetic data added to an event the provider has no details for.

    Python's `random` module is a stream of draws: the draw at position p is
    rnd(p), and random.choice(xs) at position p picks xs[rnd(p) % len(xs)].
    Every function here takes the position of its first draw and returns the
    position after its last. */
module Demo {
  import opened Wrappers
  import opened PyStr
  import opened Values

  type Random = nat -> nat

  /** random.choice(xs), drawn at position pos. */
  function Choice<T>(xs: seq<T>, rnd: Random, pos: nat): (x: T)
    requires xs != []
    ensures x in xs
  {
    xs[rnd(pos) % |xs|]
  }

  function Max(a: int, b: int): int {
    if a >= b then a else b
  }

  const TournamentPrefixes: seq<string> :=
    ["US Open", "French Open", "Australian Open", "Wimbledon", "ATP Masters", "WTA"]
  const Tournaments: seq<string> :=
    ["ATP Masters 1000", "ATP 500", "ATP 250", "WTA 1000", "WTA 500", "WTA 250",
     "Grand Slam", "Davis Cup", "Billie Jean King Cup"]
  const Venues: seq<(string, string)> :=
    [("Arthur Ashe Stadium", "New York"), ("Centre Court", "London"),
     ("Philippe Chatrier Court", "Paris"), ("Rod Laver Arena", "Melbourne"),
     ("Indian Wells Tennis Garden", "Indian Wells"), ("Miami Open Stadium", "Miami")]
  const RoundNames: seq<string> :=
    ["Final", "Semi-Final", "Quarter-Final", "Round of 16", "Round of 32", "Round of 64",
     "First Round", "Second Round", "Third Round"]

  /** No round name is '46': every one is longer than two characters. */
  lemma RoundNamesNot46()
    ensures "46" !in RoundNames
  {
    forall i | 0 <= i < |RoundNames|
      ensures |RoundNames[i]| > 2
    {
    }
  }

  // ---------------------------------------------------------------- player names

  /** Index of the first tournament prefix the name starts with. */
  function PrefixIndex(name: string): (k: nat)
    ensures k <= |TournamentPrefixes|
    ensures forall j :: 0 <= j < k ==> !StartsWith(name, TournamentPrefixes[j])
    ensures k < |TournamentPrefixes| ==> StartsWith(name, TournamentPrefixes[k])
  {
    FirstIndex(TournamentPrefixes, p => StartsWith(name, p))
  }

  /** clean_player_name: for a name of more than two words, the name with
      every '<prefix> ' removed when it starts with a tournament prefix, else
      the words after the first two when both of those are upper case; any
      other name as it is. */
  function CleanPlayerName(name: string): (r: string)
    ensures |Words(name)| <= 2 ==> r == name
  {
    var words := Words(name);
    if |words| <= 2 then name
    else
      var k := PrefixIndex(name);
      if k < |TournamentPrefixes| then Replace(name, TournamentPrefixes[k] + " ", "")
      else if IsUpper(words[0]) && IsUpper(words[1]) then Join(" ", words[2..])
      else name
  }

  /** No two tournament prefixes start the same name: their first two
      characters differ. */
  lemma PrefixesExclusive(name: string, i: nat, j: nat)
    requires i < |TournamentPrefixes| && j < |TournamentPrefixes|
    requires StartsWith(name, TournamentPrefixes[i]) && StartsWith(name, TournamentPrefixes[j])
    ensures i == j
  {
    var p, q := TournamentPrefixes[i], TournamentPrefixes[j];
    PrefixHead(i);
    PrefixHead(j);
    assert name[0] == p[0] && name[1] == p[1] by { assert name[..|p|] == p; }
    assert name[0] == q[0] && name[1] == q[1] by { assert name[..|q|] == q; }
  }

  /** The first two characters of each prefix identify it. */
  lemma PrefixHead(i: nat)
    requires i < |TournamentPrefixes|
    ensures |TournamentPrefixes[i]| >= 2
    ensures forall j :: (0 <= j < |TournamentPrefixes| && TournamentPrefixes[j][0] == TournamentPrefixes[i][0]
                         && TournamentPrefixes[j][1] == TournamentPrefixes[i][1]) ==> j == i
  {
  }

  /** A name made of a tournament prefix, a space and a rest that does not
      repeat '<prefix> ' cleans to the rest. */
  lemma CleanRemovesTournamentPrefix(i: nat, rest: string)
    requires i < |TournamentPrefixes|
    requires |Words(TournamentPrefixes[i] + " " + rest)| > 2
    requires !Contains(rest, TournamentPrefixes[i] + " ")
    ensures CleanPlayerName(TournamentPrefixes[i] + " " + rest) == rest
  {
    var p := TournamentPrefixes[i];
    var name := p + " " + rest;
    var target := p + " ";
    assert name == target + rest;
    assert StartsWith(name, p) by { assert name[..|p|] == p; }
    PrefixesExclusive(name, i, PrefixIndex(name));
    ReplaceAtStart(name, target, rest);
  }

  /** A name of more than two words that starts with a tournament prefix
      loses every occurrence of that prefix followed by a space, wherever it
      stands, and the upper-case rule is not tried. */
  lemma CleanRemovesEveryPrefix(name: string)
    requires |Words(name)| > 2 && PrefixIndex(name) < |TournamentPrefixes|
    ensures CleanPlayerName(name) == Replace(name, TournamentPrefixes[PrefixIndex(name)] + " ", "")
  {
  }

  /** A name that starts with a tournament prefix never followed by a space
      (such as 'WTAX FINALS Jones') is returned as it is, even when its first
      two words are upper case. */
  lemma CleanKeepsPrefixWithoutSpace(name: string)
    requires |Words(name)| > 2 && PrefixIndex(name) < |TournamentPrefixes|
    requires !Contains(name, TournamentPrefixes[PrefixIndex(name)] + " ")
    ensures CleanPlayerName(name) == name
  {
  }

  /** A name of more than two words that starts with no tournament prefix,
      and whose first two words are not both upper case, is returned as it is. */
  lemma CleanKeepsOrdinaryName(name: string)
    requires |Words(name)| > 2
    requires forall j :: 0 <= j < |TournamentPrefixes| ==> !StartsWith(name, TournamentPrefixes[j])
    requires !(IsUpper(Words(name)[0]) && IsUpper(Words(name)[1]))
    ensures CleanPlayerName(name) == name
  {
  }

  lemma ReplaceAtStart(s: string, target: string, rest: string)
    requires target != [] && s == target + rest && !Contains(rest, target)
    ensures Replace(s, target, "") == rest
  {
    assert OccursAt(s, target, 0) by { assert s[..|target|] == target; }
    assert Find(s, target) == 0;
    assert s[|target|..] == rest;
  }

  /** A name of more than two words that starts with no tournament prefix,
      and whose first two words are upper case, cleans to its words after
      the first two. */
  lemma CleanDropsUpperCaseWords(name: string)
    requires |Words(name)| > 2
    requires forall j :: 0 <= j < |TournamentPrefixes| ==> !StartsWith(name, TournamentPrefixes[j])
    requires IsUpper(Words(name)[0]) && IsUpper(Words(name)[1])
    ensures Words(CleanPlayerName(name)) == Words(name)[2..]
  {
    CleanOfUpperCaseWords(name);
    WordsOfJoinDrop(Words(name), 2);
  }

  lemma CleanOfUpperCaseWords(name: string)
    requires |Words(name)| > 2
    requires forall j :: 0 <= j < |TournamentPrefixes| ==> !StartsWith(name, TournamentPrefixes[j])
    requires IsUpper(Words(name)[0]) && IsUpper(Words(name)[1])
    ensures CleanPlayerName(name) == Join(" ", Words(name)[2..])
  {
  }

  // ---------------------------------------------------------------- score generator

  const NumSetsChoices: seq<nat> := [2, 3, 3, 3, 4, 5]
  const HomeGamesChoices: seq<nat> := [6, 6, 6, 7, 6, 6]

  /** The away games drawn for a set whose home games are homeGames. */
  function AwayGames(homeGames: nat, rnd: Random, pos: nat): nat {
    if homeGames == 7 then Choice([5, 6], rnd, pos)
    else if homeGames == 6 then Choice([0, 1, 2, 3, 4], rnd, pos)
    else Choice([3, 4], rnd, pos)
  }

  /** One generated set: the games of the set's winner side as drawn, and
      whether the home player took it. */
  datatype SetPlay = SetPlay(homeGames: nat, awayGames: nat, homeWins: bool)

  /** A set as a tennis set: 6 games to at most 4, or 7 to 5 or 6. */
  predicate ValidSet(s: SetPlay) {
    (s.homeGames == 6 && s.awayGames <= 4) || (s.homeGames == 7 && (s.awayGames == 5 || s.awayGames == 6))
  }

  /** The three draws of one set, from position pos. */
  function DrawSet(rnd: Random, pos: nat): (s: SetPlay)
    ensures ValidSet(s)
  {
    var homeGames := Choice(HomeGamesChoices, rnd, pos);
    SetPlay(homeGames, AwayGames(homeGames, rnd, pos + 1), Choice([true, false], rnd, pos + 2))
  }

  /** The set as the score list shows it, the home player's games first. */
  function SetScore(s: SetPlay): string {
    if s.homeWins then IntToStr(s.homeGames) + "-" + IntToStr(s.awayGames)
    else IntToStr(s.awayGames) + "-" + IntToStr(s.homeGames)
  }

  function HomeSets(sets: seq<SetPlay>): nat {
    if sets == [] then 0 else HomeSets(sets[..|sets| - 1]) + (if sets[|sets| - 1].homeWins then 1 else 0)
  }

  function AwaySets(sets: seq<SetPlay>): nat {
    if sets == [] then 0 else AwaySets(sets[..|sets| - 1]) + (if sets[|sets| - 1].homeWins then 0 else 1)
  }

  /** The score list: one set score per set, in order. */
  function SetScores(sets: seq<SetPlay>): seq<string> {
    seq(|sets|, k requires 0 <= k < |sets| => SetScore(sets[k]))
  }

  lemma {:induction false} SetsAddUp(sets: seq<SetPlay>)
    ensures HomeSets(sets) + AwaySets(sets) == |sets|
  {
    if sets != [] {
      SetsAddUp(sets[..|sets| - 1]);
    }
  }

  /** The sets a player needs: 2 in a match of at most three sets, else 3. */
  function SetsToWin(numSets: nat): nat {
    if numSets <= 3 then 2 else 3
  }

  /** The stop test after each set. */
  predicate MatchOver(numSets: nat, homeSets: nat, awaySets: nat) {
    (numSets <= 3 && Max(homeSets, awaySets) >= 2) || (numSets > 3 && Max(homeSets, awaySets) >= 3)
  }

  /** The sets played after `sets`, drawing from position pos, until numSets
      sets are played or the match is over; and the next position. */
  function PlaySets(numSets: nat, sets: seq<SetPlay>, rnd: Random, pos: nat): (seq<SetPlay>, nat)
    decreases numSets - |sets|
  {
    if |sets| >= numSets then (sets, pos)
    else
      var played := sets + [DrawSet(rnd, pos)];
      if MatchOver(numSets, HomeSets(played), AwaySets(played)) then (played, pos + 3)
      else PlaySets(numSets, played, rnd, pos + 3)
  }

  /** The generated match: the number of sets drawn, the sets played and
      the next position. */
  function PlayedMatch(rnd: Random, pos: nat): (nat, seq<SetPlay>, nat) {
    var numSets := Choice(NumSetsChoices, rnd, pos);
    var (sets, next) := PlaySets(numSets, [], rnd, pos + 1);
    (numSets, sets, next)
  }

  /** The score dict of a generated match. */
  function ScoreOf(sets: seq<SetPlay>): Score {
    Synthetic(HomeSets(sets), AwaySets(sets), SetScores(sets), Str("Finished"))
  }

  /** What _generate_tennis_score returns, and the next position. */
  function GeneratedScore(rnd: Random, pos: nat): (r: (Score, nat))
    ensures r.0.Synthetic? && r.0.matchStatus == Str("Finished")
    ensures r.0.homeSets + r.0.awaySets == |r.0.setScores| >= 1
    ensures r.1 > pos
  {
    var (_, sets, next) := PlayedMatch(rnd, pos);
    GeneratedMatch(rnd, pos);
    SetsAddUp(sets);
    (ScoreOf(sets), next)
  }

  /** _generate_tennis_score */
  method GenerateTennisScore(rnd: Random, pos: nat) returns (score: Score, next: nat)
    ensures (score, next) == GeneratedScore(rnd, pos)
  {
    var numSets := Choice(NumSetsChoices, rnd, pos);
    var p: nat := pos + 1;
    var homeSets, awaySets := 0, 0;
    var setScores: seq<string> := [];
    ghost var played: seq<SetPlay> := [];
    var i := 0;
    while i < numSets
      invariant i == |played| <= numSets
      invariant homeSets == HomeSets(played) && awaySets == AwaySets(played)
      invariant setScores == SetScores(played)
      invariant PlaySets(numSets, played, rnd, p) == PlaySets(numSets, [], rnd, pos + 1)
    {
      var homeGames := Choice(HomeGamesChoices, rnd, p);
      var awayGames := AwayGames(homeGames, rnd, p + 1);
      var drawn := SetPlay(homeGames, awayGames, Choice([true, false], rnd, p + 2));
      if drawn.homeWins {
        setScores := setScores + [IntToStr(homeGames) + "-" + IntToStr(awayGames)];
        homeSets := homeSets + 1;
      } else {
        setScores := setScores + [IntToStr(awayGames) + "-" + IntToStr(homeGames)];
        awaySets := awaySets + 1;
      }
      AppendSet(numSets, played, drawn, rnd, p);
      played := played + [drawn];
      p := p + 3;
      if (numSets <= 3 && Max(homeSets, awaySets) >= 2) || (numSets > 3 && Max(homeSets, awaySets) >= 3) {
        score, next := Synthetic(homeSets, awaySets, setScores, Str("Finished")), p;
        return;
      }
      i := i + 1;
    }
    score, next := Synthetic(homeSets, awaySets, setScores, Str("Finished")), p;
  }

  /** One round of the loop of _generate_tennis_score: the set drawn at
      position pos, appended to the sets so far, updates the counts and the
      score list, and PlaySets either stops there or carries on from it. */
  lemma AppendSet(numSets: nat, sets: seq<SetPlay>, s: SetPlay, rnd: Random, pos: nat)
    requires |sets| < numSets && s == DrawSet(rnd, pos)
    ensures HomeSets(sets + [s]) == HomeSets(sets) + (if s.homeWins then 1 else 0)
    ensures AwaySets(sets + [s]) == AwaySets(sets) + (if s.homeWins then 0 else 1)
    ensures SetScores(sets + [s]) == SetScores(sets) + [SetScore(s)]
    ensures PlaySets(numSets, sets, rnd, pos) ==
      if MatchOver(numSets, HomeSets(sets + [s]), AwaySets(sets + [s])) then (sets + [s], pos + 3)
      else PlaySets(numSets, sets + [s], rnd, pos + 3)
  {
    SetsOfAppend(sets, s);
    assert (sets + [s])[..|sets|] == sets;
  }

  /** What the loop keeps from one set to the next: the sets so far are
      valid, the match was not over before, and the leader stays within the
      sets needed. */
  predicate PlayInvariant(numSets: nat, sets: seq<SetPlay>) {
    && |sets| <= numSets
    && (forall k :: 0 <= k < |sets| ==> ValidSet(sets[k]))
    && (forall j :: 0 <= j < |sets| ==> !MatchOver(numSets, HomeSets(sets[..j]), AwaySets(sets[..j])))
    && Max(HomeSets(sets), AwaySets(sets)) <= SetsToWin(numSets)
  }

  /** The match is over exactly when the leader has the sets needed. */
  lemma MatchOverIff(numSets: nat, homeSets: nat, awaySets: nat)
    ensures MatchOver(numSets, homeSets, awaySets) <==> Max(homeSets, awaySets) >= SetsToWin(numSets)
  {
  }

  lemma SetsOfAppend(sets: seq<SetPlay>, s: SetPlay)
    ensures HomeSets(sets + [s]) == HomeSets(sets) + (if s.homeWins then 1 else 0)
    ensures AwaySets(sets + [s]) == AwaySets(sets) + (if s.homeWins then 0 else 1)
  {
    assert (sets + [s])[..|sets|] == sets;
  }

  /** One more valid set, played while the match is not over, keeps the invariant. */
  lemma PlayStep(numSets: nat, sets: seq<SetPlay>, s: SetPlay)
    requires PlayInvariant(numSets, sets) && !MatchOver(numSets, HomeSets(sets), AwaySets(sets))
    requires |sets| < numSets && ValidSet(s)
    ensures PlayInvariant(numSets, sets + [s])
  {
    var played := sets + [s];
    assert forall k :: 0 <= k < |played| ==> ValidSet(played[k]) by {
      forall k | 0 <= k < |played| ensures ValidSet(played[k]) {
        if k < |sets| {
          assert played[k] == sets[k];
        }
      }
    }
    forall j | 0 <= j < |played|
      ensures !MatchOver(numSets, HomeSets(played[..j]), AwaySets(played[..j]))
    {
      if j < |sets| {
        assert played[..j] == sets[..j];
      } else {
        assert played[..j] == sets;
      }
    }
    SetsOfAppend(sets, s);
    MatchOverIff(numSets, HomeSets(sets), AwaySets(sets));
    assert Max(HomeSets(played), AwaySets(played)) <= SetsToWin(numSets);
  }

  lemma {:induction false} PlaySetsFacts(numSets: nat, sets: seq<SetPlay>, rnd: Random, pos: nat)
    requires PlayInvariant(numSets, sets) && !MatchOver(numSets, HomeSets(sets), AwaySets(sets))
    ensures var (r, next) := PlaySets(numSets, sets, rnd, pos);
      && PlayInvariant(numSets, r)
      && |sets| <= |r| && r[..|sets|] == sets
      && next == pos + 3 * (|r| - |sets|)
      && (|r| == numSets || MatchOver(numSets, HomeSets(r), AwaySets(r)))
    decreases numSets - |sets|
  {
    if |sets| < numSets {
      var played := sets + [DrawSet(rnd, pos)];
      PlayStep(numSets, sets, DrawSet(rnd, pos));
      assert played[..|sets|] == sets;
      if !MatchOver(numSets, HomeSets(played), AwaySets(played)) {
        PlaySetsFacts(numSets, played, rnd, pos + 3);
        var (r, next) := PlaySets(numSets, played, rnd, pos + 3);
        assert r[..|sets|] == r[..|played|][..|sets|];
      }
    }
  }

  /** The generated match: between one set and the drawn number of sets,
      each a valid tennis set; it ends as soon as a player has the sets
      needed (2 of at most three, else 3), no set is played after that, and
      nobody ever has more; one draw for the number of sets and three per set. */
  lemma GeneratedMatch(rnd: Random, pos: nat)
    ensures var (numSets, sets, next) := PlayedMatch(rnd, pos);
      && numSets in {2, 3, 4, 5}
      && 1 <= |sets| <= numSets
      && (forall k :: 0 <= k < |sets| ==> ValidSet(sets[k]))
      && (forall j :: 0 <= j < |sets| ==> !MatchOver(numSets, HomeSets(sets[..j]), AwaySets(sets[..j])))
      && Max(HomeSets(sets), AwaySets(sets)) <= SetsToWin(numSets)
      && (|sets| < numSets ==> Max(HomeSets(sets), AwaySets(sets)) == SetsToWin(numSets))
      && next == pos + 1 + 3 * |sets|
  {
    var numSets := Choice(NumSetsChoices, rnd, pos);
    assert numSets in {2, 3, 4, 5};
    assert PlayInvariant(numSets, []);
    PlaySetsFacts(numSets, [], rnd, pos + 1);
    var (sets, next) := PlaySets(numSets, [], rnd, pos + 1);
    MatchOverIff(numSets, HomeSets(sets), AwaySets(sets));
  }

  /** With an odd number of sets (three or five) the generated match has a
      winner: one player has exactly the sets needed and more than the other. */
  lemma OddMatchHasWinner(rnd: Random, pos: nat)
    requires PlayedMatch(rnd, pos).0 % 2 == 1
    ensures var (numSets, sets, _) := PlayedMatch(rnd, pos);
      && Max(HomeSets(sets), AwaySets(sets)) == SetsToWin(numSets)
      && HomeSets(sets) != AwaySets(sets)
  {
    GeneratedMatch(rnd, pos);
    var (numSets, sets, _) := PlayedMatch(rnd, pos);
    SetsAddUp(sets);
  }

  /** The score dict _generate_tennis_score returns: home and away sets add
      up to the number of set scores, which is at least one and at most the
      number of sets drawn; each set score is a valid set, the home player's games
      first; nobody has more than the sets needed; and the status is 'Finished'. */
  lemma GeneratedScoreShape(rnd: Random, pos: nat)
    ensures var (numSets, sets, _) := PlayedMatch(rnd, pos);
      var score := GeneratedScore(rnd, pos).0;
      && score.Synthetic? && score.matchStatus == Str("Finished")
      && score.homeSets + score.awaySets == |score.setScores| == |sets|
      && 1 <= |score.setScores| <= numSets
      && (forall k :: 0 <= k < |sets| ==> ValidSet(sets[k]) && score.setScores[k] == SetScore(sets[k]))
      && Max(score.homeSets, score.awaySets) <= SetsToWin(numSets)
  {
    GeneratedMatch(rnd, pos);
    var (numSets, sets, _) := PlayedMatch(rnd, pos);
    SetsAddUp(sets);
  }

  /** With two or four sets drawn the generated 'Finished' match can be
      level: here two sets end one all. */
  lemma TwoSetMatchCanBeLevel()
    ensures var rnd: Random := p => if p == 6 then 1 else 0;
      GeneratedScore(rnd, 0).0 == Synthetic(1, 1, ["6-0", "0-6"], Str("Finished"))
  {
    var rnd: Random := p => if p == 6 then 1 else 0;
    var s1 := SetPlay(6, 0, true);
    var s2 := SetPlay(6, 0, false);
    assert DrawSet(rnd, 1) == s1;
    assert DrawSet(rnd, 4) == s2;
    SetsOfAppend([], s1);
    SetsOfAppend([s1], s2);
    assert [] + [s1] == [s1];
    assert [s1] + [s2] == [s1, s2];
    assert !MatchOver(2, 1, 1);
    assert !MatchOver(2, 1, 0);
    assert PlaySets(2, [s1, s2], rnd, 7) == ([s1, s2], 7);
    assert PlaySets(2, [s1], rnd, 4) == ([s1, s2], 7);
    assert PlaySets(2, [], rnd, 1) == ([s1, s2], 7);
    assert [s1, s2][..1] == [s1];
    assert SetScore(s1) == "6-0" && SetScore(s2) == "0-6" by {
      assert IntToStr(6) == "6" && IntToStr(0) == "0";
    }
  }

  // ---------------------------------------------------------------- enhance

  /** enhanced.get(key, default), for a key that is missing or holds a str. */
  function TextOr(ev: Event, key: string, default: string): string
    requires TextOrAbsent(ev, key)
  {
    if key in ev then ev[key].v.s else default
  }

  /** The round is replaced: it is falsy or '46'. */
  predicate NeedsRound(ev: Event) {
    !FieldTruthy(Lookup(ev, "round")) || Lookup(ev, "round") == Text("46")
  }

  /** b has the fields of a outside `written`, and no others outside it. */
  predicate KeepsOutside(a: Event, b: Event, written: set<string>) {
    && (forall k :: k in a && k !in written ==> k in b && b[k] == a[k])
    && (forall k :: k in b && k !in written ==> k in a)
  }

  lemma KeepsOutsideCompose(a: Event, b: Event, c: Event, w1: set<string>, w2: set<string>)
    requires KeepsOutside(a, b, w1) && KeepsOutside(b, c, w2)
    ensures KeepsOutside(a, c, w1 + w2)
  {
  }

  lemma LookupOutside(a: Event, b: Event, written: set<string>, key: string)
    requires KeepsOutside(a, b, written) && key !in written
    ensures Lookup(b, key) == Lookup(a, key)
  {
  }

  /** The event with the given player names. */
  function WithNames(basic: Event, home: string, away: string): (ev: Event)
    ensures ev.Keys == basic.Keys + {"home_player", "away_player"}
    ensures ev["home_player"] == Text(home) && ev["away_player"] == Text(away)
    ensures KeepsOutside(basic, ev, {"home_player", "away_player"})
  {
    basic["home_player" := Text(home)]["away_player" := Text(away)]
  }

  /** The cleaned player names; a missing name defaults to 'Player A' or 'Player B'. */
  function CleanNames(basic: Event): Event
    requires TextOrAbsent(basic, "home_player") && TextOrAbsent(basic, "away_player")
  {
    WithNames(basic, CleanPlayerName(TextOr(basic, "home_player", "Player A")),
              CleanPlayerName(TextOr(basic, "away_player", "Player B")))
  }

  /** A random ATP tournament for league 'ATP World Tour'. */
  function PickLeague(ev: Event, rnd: Random, pos: nat): (r: (Event, nat))
    ensures r.0.Keys == ev.Keys && r.1 >= pos
    ensures Lookup(ev, "league") == Text("ATP World Tour") ==>
      exists t :: t in Tournaments[..4] && r.0["league"] == Text(t)
    ensures Lookup(ev, "league") != Text("ATP World Tour") ==> r == (ev, pos)
    ensures KeepsOutside(ev, r.0, {"league"})
  {
    if Lookup(ev, "league") == Text("ATP World Tour") then
      var t := Choice(Tournaments[..4], rnd, pos);
      (ev["league" := Text(t)], pos + 1)
    else
      (ev, pos)
  }

  /** A random venue and its city. */
  function PickVenue(ev: Event, rnd: Random, pos: nat): (r: (Event, nat))
    ensures r.0.Keys == ev.Keys + {"venue", "city"} && r.1 == pos + 1
    ensures exists v :: v in Venues && r.0["venue"] == Text(v.0) && r.0["city"] == Text(v.1)
    ensures KeepsOutside(ev, r.0, {"venue", "city"})
  {
    var v := Choice(Venues, rnd, pos);
    (ev["venue" := Text(v.0)]["city" := Text(v.1)], pos + 1)
  }

  /** A random round name when the round is falsy or '46'. */
  function PickRound(ev: Event, rnd: Random, pos: nat): (r: (Event, nat))
    ensures r.0.Keys == ev.Keys + (if NeedsRound(ev) then {"round"} else {}) && r.1 >= pos
    ensures NeedsRound(ev) ==> exists n :: n in RoundNames && r.0["round"] == Text(n)
    ensures !NeedsRound(ev) ==> r == (ev, pos)
    ensures KeepsOutside(ev, r.0, {"round"})
  {
    if NeedsRound(ev) then
      var n := Choice(RoundNames, rnd, pos);
      (ev["round" := Text(n)], pos + 1)
    else
      (ev, pos)
  }

  /** A generated score when the status is 'Finished'. */
  function AddScore(ev: Event, rnd: Random, pos: nat): (r: (Event, nat))
    ensures r.0.Keys == ev.Keys + (if Lookup(ev, "status") == Text("Finished") then {"score_json"} else {})
    ensures Lookup(ev, "status") == Text("Finished") ==>
      r.0["score_json"] == ScoreJson(GeneratedScore(rnd, pos).0) && r.1 == GeneratedScore(rnd, pos).1
    ensures Lookup(ev, "status") != Text("Finished") ==> r == (ev, pos)
    ensures KeepsOutside(ev, r.0, {"score_json"})
  {
    if Lookup(ev, "status") == Text("Finished") then
      var (score, next) := GeneratedScore(rnd, pos);
      (ev["score_json" := ScoreJson(score)], next)
    else
      (ev, pos)
  }

  /** enhance_demo_event: names cleaned, then league, venue, round and score
      drawn in that order; returns the next position. */
  function EnhanceDemoEvent(basic: Event, rnd: Random, pos: nat): (r: (Event, nat))
    requires TextOrAbsent(basic, "home_player") && TextOrAbsent(basic, "away_player")
    ensures KeepsOutside(basic, r.0, DemoFields)
    ensures r.1 > pos
  {
    var named := CleanNames(basic);
    var (withLeague, p1) := PickLeague(named, rnd, pos);
    var (withVenue, p2) := PickVenue(withLeague, rnd, p1);
    var (withRound, p3) := PickRound(withVenue, rnd, p2);
    var (ev, next) := AddScore(withRound, rnd, p3);
    StagesKeep(basic, named, withLeague, withVenue, withRound, ev);
    (ev, next)
  }

  /** The player names of enhance_demo_event, each cleaned. */
  method AssignNames(basic: Event) returns (enhanced: Event)
    requires TextOrAbsent(basic, "home_player") && TextOrAbsent(basic, "away_player")
    ensures enhanced == CleanNames(basic)
  {
    enhanced := basic;
    var homePlayer := TextOr(enhanced, "home_player", "Player A");
    var awayPlayer := TextOr(enhanced, "away_player", "Player B");
    enhanced := enhanced["home_player" := Text(CleanPlayerName(homePlayer))];
    enhanced := enhanced["away_player" := Text(CleanPlayerName(awayPlayer))];
  }

  /** The league of enhance_demo_event. */
  method AssignLeague(ev: Event, rnd: Random, pos: nat) returns (enhanced: Event, next: nat)
    ensures (enhanced, next) == PickLeague(ev, rnd, pos)
  {
    enhanced, next := ev, pos;
    if Lookup(enhanced, "league") == Text("ATP World Tour") {
      enhanced := enhanced["league" := Text(Choice(Tournaments[..4], rnd, next))];
      next := next + 1;
    }
  }

  /** The venue and city of enhance_demo_event. */
  method AssignVenue(ev: Event, rnd: Random, pos: nat) returns (enhanced: Event, next: nat)
    ensures (enhanced, next) == PickVenue(ev, rnd, pos)
  {
    var venue := Choice(Venues, rnd, pos);
    next := pos + 1;
    enhanced := ev["venue" := Text(venue.0)];
    enhanced := enhanced["city" := Text(venue.1)];
  }

  /** The round of enhance_demo_event. */
  method AssignRound(ev: Event, rnd: Random, pos: nat) returns (enhanced: Event, next: nat)
    ensures (enhanced, next) == PickRound(ev, rnd, pos)
  {
    enhanced, next := ev, pos;
    if NeedsRound(enhanced) {
      enhanced := enhanced["round" := Text(Choice(RoundNames, rnd, next))];
      next := next + 1;
    }
  }

  /** The score of enhance_demo_event, drawn for a finished match. */
  method AssignScore(ev: Event, rnd: Random, pos: nat) returns (enhanced: Event, next: nat)
    ensures (enhanced, next) == AddScore(ev, rnd, pos)
  {
    enhanced, next := ev, pos;
    if Lookup(enhanced, "status") == Text("Finished") {
      var score, n := GenerateTennisScore(rnd, next);
      enhanced := enhanced["score_json" := ScoreJson(score)];
      next := n;
    }
  }

  /** The assignments of enhance_demo_event, in the source's order, on a
      copy of the basic event, drawing from rnd at pos onwards. */
  method Enhance(basic: Event, rnd: Random, pos: nat) returns (enhanced: Event, next: nat)
    requires TextOrAbsent(basic, "home_player") && TextOrAbsent(basic, "away_player")
    ensures (enhanced, next) == EnhanceDemoEvent(basic, rnd, pos)
  {
    enhanced := AssignNames(basic);
    enhanced, next := AssignLeague(enhanced, rnd, pos);
    enhanced, next := AssignVenue(enhanced, rnd, next);
    enhanced, next := AssignRound(enhanced, rnd, next);
    enhanced, next := AssignScore(enhanced, rnd, next);
  }

  /** The fields enhance_demo_event may write. */
  const DemoFields: set<string> :=
    {"home_player", "away_player", "league", "venue", "city", "round", "score_json"}

  /** How the fields of the stages of enhance_demo_event relate. */
  lemma StagesKeep(basic: Event, named: Event, withLeague: Event, withVenue: Event, withRound: Event, ev: Event)
    requires KeepsOutside(basic, named, {"home_player", "away_player"})
    requires KeepsOutside(named, withLeague, {"league"})
    requires KeepsOutside(withLeague, withVenue, {"venue", "city"})
    requires KeepsOutside(withVenue, withRound, {"round"})
    requires KeepsOutside(withRound, ev, {"score_json"})
    ensures KeepsOutside(basic, ev, DemoFields)
    ensures Lookup(named, "league") == Lookup(basic, "league")
    ensures Lookup(withVenue, "round") == Lookup(basic, "round")
    ensures Lookup(withRound, "status") == Lookup(basic, "status")
    ensures Lookup(withRound, "score_json") == Lookup(basic, "score_json")
    ensures Lookup(ev, "league") == Lookup(withLeague, "league")
    ensures Lookup(ev, "round") == Lookup(withRound, "round")
    ensures Lookup(ev, "home_player") == Lookup(named, "home_player")
    ensures Lookup(ev, "away_player") == Lookup(named, "away_player")
    ensures Lookup(ev, "venue") == Lookup(withVenue, "venue")
    ensures Lookup(ev, "city") == Lookup(withVenue, "city")
  {
    var w3 := {"home_player", "away_player", "league", "venue", "city"};
    StagesUpToVenue(basic, named, withLeague, withVenue);
    KeepsOutsideCompose(basic, withVenue, withRound, w3, {"round"});
    KeepsOutsideCompose(basic, withRound, ev, w3 + {"round"}, {"score_json"});
    assert w3 + {"round"} + {"score_json"} == DemoFields;
    StagesStatus(basic, named, withLeague, withVenue, withRound);
    StagesAfterLeague(named, withLeague, withVenue, withRound, ev);
  }

  lemma StagesStatus(basic: Event, named: Event, withLeague: Event, withVenue: Event, withRound: Event)
    requires KeepsOutside(basic, named, {"home_player", "away_player"})
    requires KeepsOutside(named, withLeague, {"league"})
    requires KeepsOutside(withLeague, withVenue, {"venue", "city"})
    requires KeepsOutside(withVenue, withRound, {"round"})
    ensures Lookup(withRound, "status") == Lookup(basic, "status")
    ensures Lookup(withRound, "score_json") == Lookup(basic, "score_json")
  {
    var w3 := {"home_player", "away_player", "league", "venue", "city"};
    StagesUpToVenue(basic, named, withLeague, withVenue);
    KeepsOutsideCompose(basic, withVenue, withRound, w3, {"round"});
    LookupOutside(basic, withRound, w3 + {"round"}, "status");
    LookupOutside(basic, withRound, w3 + {"round"}, "score_json");
  }

  lemma StagesUpToVenue(basic: Event, named: Event, withLeague: Event, withVenue: Event)
    requires KeepsOutside(basic, named, {"home_player", "away_player"})
    requires KeepsOutside(named, withLeague, {"league"})
    requires KeepsOutside(withLeague, withVenue, {"venue", "city"})
    ensures KeepsOutside(basic, withVenue, {"home_player", "away_player", "league", "venue", "city"})
    ensures Lookup(named, "league") == Lookup(basic, "league")
    ensures Lookup(withVenue, "round") == Lookup(basic, "round")
  {
    KeepsOutsideCompose(basic, named, withLeague, {"home_player", "away_player"}, {"league"});
    KeepsOutsideCompose(basic, withLeague, withVenue, {"home_player", "away_player", "league"}, {"venue", "city"});
    assert {"home_player", "away_player"} + {"league"} + {"venue", "city"} == {"home_player", "away_player", "league", "venue", "city"};
    LookupOutside(basic, named, {"home_player", "away_player"}, "league");
    LookupOutside(basic, withVenue, {"home_player", "away_player", "league", "venue", "city"}, "round");
  }

  lemma StagesAfterLeague(named: Event, withLeague: Event, withVenue: Event, withRound: Event, ev: Event)
    requires KeepsOutside(named, withLeague, {"league"})
    requires KeepsOutside(withLeague, withVenue, {"venue", "city"})
    requires KeepsOutside(withVenue, withRound, {"round"})
    requires KeepsOutside(withRound, ev, {"score_json"})
    ensures Lookup(ev, "league") == Lookup(withLeague, "league")
    ensures Lookup(ev, "round") == Lookup(withRound, "round")
    ensures Lookup(ev, "home_player") == Lookup(named, "home_player")
    ensures Lookup(ev, "away_player") == Lookup(named, "away_player")
    ensures Lookup(ev, "venue") == Lookup(withVenue, "venue")
    ensures Lookup(ev, "city") == Lookup(withVenue, "city")
  {
    var late := {"venue", "city", "round", "score_json"};
    KeepsOutsideCompose(withLeague, withVenue, withRound, {"venue", "city"}, {"round"});
    KeepsOutsideCompose(withLeague, withRound, ev, {"venue", "city", "round"}, {"score_json"});
    assert {"venue", "city"} + {"round"} + {"score_json"} == late;
    KeepsOutsideCompose(named, withLeague, ev, {"league"}, late);
    KeepsOutsideCompose(withVenue, withRound, ev, {"round"}, {"score_json"});
    LookupOutside(withLeague, ev, late, "league");
    LookupOutside(withRound, ev, {"score_json"}, "round");
    LookupOutside(named, ev, {"league"} + late, "home_player");
    LookupOutside(named, ev, {"league"} + late, "away_player");
    LookupOutside(withVenue, ev, {"round"} + {"score_json"}, "venue");
    LookupOutside(withVenue, ev, {"round"} + {"score_json"}, "city");
  }

  /** The fields enhance_demo_event adds are the names, venue and city, a
      round where it needs one and a score for a finished match; no other
      field changes; and it draws at least once. */
  lemma EnhanceDemoEventKeys(basic: Event, rnd: Random, pos: nat)
    requires TextOrAbsent(basic, "home_player") && TextOrAbsent(basic, "away_player")
    ensures var (ev, next) := EnhanceDemoEvent(basic, rnd, pos);
      && ev.Keys == basic.Keys + {"home_player", "away_player", "venue", "city"}
          + (if NeedsRound(basic) then {"round"} else {})
          + (if Lookup(basic, "status") == Text("Finished") then {"score_json"} else {})
      && KeepsOutside(basic, ev, DemoFields)
      && next > pos
  {
    var named := CleanNames(basic);
    var (withLeague, p1) := PickLeague(named, rnd, pos);
    var (withVenue, p2) := PickVenue(withLeague, rnd, p1);
    var (withRound, p3) := PickRound(withVenue, rnd, p2);
    var (ev, next) := AddScore(withRound, rnd, p3);
    StagesKeep(basic, named, withLeague, withVenue, withRound, ev);
    StagesKeys(basic, named, withLeague, withVenue, withRound, ev);
    if Lookup(basic, "status") == Text("Finished") {
      GeneratedMatch(rnd, p3);
    }
  }

  lemma StagesKeys(basic: Event, named: Event, withLeague: Event, withVenue: Event, withRound: Event, ev: Event)
    requires named.Keys == basic.Keys + {"home_player", "away_player"}
    requires withLeague.Keys == named.Keys
    requires withVenue.Keys == withLeague.Keys + {"venue", "city"}
    requires withRound.Keys == withVenue.Keys + (if NeedsRound(withVenue) then {"round"} else {})
    requires ev.Keys == withRound.Keys + (if Lookup(withRound, "status") == Text("Finished") then {"score_json"} else {})
    requires Lookup(withVenue, "round") == Lookup(basic, "round")
    requires Lookup(withRound, "status") == Lookup(basic, "status")
    ensures ev.Keys == basic.Keys + {"home_player", "away_player", "venue", "city"}
          + (if NeedsRound(basic) then {"round"} else {})
          + (if Lookup(basic, "status") == Text("Finished") then {"score_json"} else {})
  {
    assert NeedsRound(withVenue) == NeedsRound(basic);
  }

  /** The player names are cleaned, a missing one first defaulting to
      'Player A' or 'Player B'; venue and city are a pair from the venue list. */
  lemma EnhanceDemoEventNames(basic: Event, rnd: Random, pos: nat)
    requires TextOrAbsent(basic, "home_player") && TextOrAbsent(basic, "away_player")
    ensures var ev := EnhanceDemoEvent(basic, rnd, pos).0;
      && ev["home_player"] == Text(CleanPlayerName(TextOr(basic, "home_player", "Player A")))
      && ev["away_player"] == Text(CleanPlayerName(TextOr(basic, "away_player", "Player B")))
      && (exists v :: v in Venues && ev["venue"] == Text(v.0) && ev["city"] == Text(v.1))
  {
    var named := CleanNames(basic);
    var (withLeague, p1) := PickLeague(named, rnd, pos);
    var (withVenue, p2) := PickVenue(withLeague, rnd, p1);
    var (withRound, p3) := PickRound(withVenue, rnd, p2);
    var (ev, next) := AddScore(withRound, rnd, p3);
    StagesKeep(basic, named, withLeague, withVenue, withRound, ev);
  }

  /** League 'ATP World Tour' becomes one of the four tournaments at the head
      of the list; any other league stays. */
  lemma EnhanceDemoEventLeague(basic: Event, rnd: Random, pos: nat)
    requires TextOrAbsent(basic, "home_player") && TextOrAbsent(basic, "away_player")
    ensures var ev := EnhanceDemoEvent(basic, rnd, pos).0;
      && (Lookup(basic, "league") == Text("ATP World Tour") ==> exists t :: t in Tournaments[..4] && ev["league"] == Text(t))
      && (Lookup(basic, "league") != Text("ATP World Tour") ==> Lookup(ev, "league") == Lookup(basic, "league"))
  {
    var named := CleanNames(basic);
    var (withLeague, p1) := PickLeague(named, rnd, pos);
    var (withVenue, p2) := PickVenue(withLeague, rnd, p1);
    var (withRound, p3) := PickRound(withVenue, rnd, p2);
    var (ev, next) := AddScore(withRound, rnd, p3);
    StagesKeep(basic, named, withLeague, withVenue, withRound, ev);
  }

  /** A falsy or '46' round becomes one of the round names; any other round stays. */
  lemma EnhanceDemoEventRound(basic: Event, rnd: Random, pos: nat)
    requires TextOrAbsent(basic, "home_player") && TextOrAbsent(basic, "away_player")
    ensures var ev := EnhanceDemoEvent(basic, rnd, pos).0;
      && (NeedsRound(basic) ==> exists n :: n in RoundNames && ev["round"] == Text(n))
      && (!NeedsRound(basic) ==> Lookup(ev, "round") == Lookup(basic, "round"))
  {
    var named := CleanNames(basic);
    var (withLeague, p1) := PickLeague(named, rnd, pos);
    var (withVenue, p2) := PickVenue(withLeague, rnd, p1);
    var (withRound, p3) := PickRound(withVenue, rnd, p2);
    var (ev, next) := AddScore(withRound, rnd, p3);
    StagesKeep(basic, named, withLeague, withVenue, withRound, ev);
  }

  /** A 'Finished' event gets a generated score, drawn after the other draws;
      any other event keeps its own. */
  lemma EnhanceDemoEventScore(basic: Event, rnd: Random, pos: nat)
    requires TextOrAbsent(basic, "home_player") && TextOrAbsent(basic, "away_player")
    ensures var ev := EnhanceDemoEvent(basic, rnd, pos).0;
      && (Lookup(basic, "status") == Text("Finished") ==>
            exists p :: pos < p && Lookup(ev, "score_json") == ScoreJson(GeneratedScore(rnd, p).0))
      && (Lookup(basic, "status") != Text("Finished") ==> Lookup(ev, "score_json") == Lookup(basic, "score_json"))
  {
    var named := CleanNames(basic);
    var (withLeague, p1) := PickLeague(named, rnd, pos);
    var (withVenue, p2) := PickVenue(withLeague, rnd, p1);
    var (withRound, p3) := PickRound(withVenue, rnd, p2);
    var (ev, next) := AddScore(withRound, rnd, p3);
    StagesStatus(basic, named, withLeague, withVenue, withRound);
    assert pos < p3;
    if Lookup(basic, "status") == Text("Finished") {
      assert Lookup(ev, "score_json") == ScoreJson(GeneratedScore(rnd, p3).0);
    }
  }
}

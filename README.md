# Tennis event normalisation, modelled in Dafny

This project models `TennisDataProcessor` in `app/data_processor.py` of a
tennis-scores backend. The processor takes loosely typed event records from
TheSportsDB and turns each one into a canonical event dict with these fields:
`id`, `external_event_id`, `home_player`, `away_player`, `league`, `round`,
`start_time`, `status`, `score_json`, and optionally `venue` and `city`.
The processor also enriches each event with the provider's detail record,
or, when there is none, with generated demo data.

Modules, one concern each:

- `Wrappers` (`wrappers.dfy`): `Option` and `Outcome`. An `Outcome` is a
  value or `Raised`, which stands for a Python exception.
- `PyStr` (`pystr.dfy`): the Python string builtins the processor uses, with
  their own properties. These are `strip`, `split()`, `' '.join`,
  `split(sep)` up to its second field, `in`, `replace`, `lower`, `isupper`,
  `startswith`, `str(int)` and `int(str)`.
- `Values` (`values.dfy`): record values (`None`, `str` or `int`) and Python
  truthiness, `get` and `or`. Also the canonical event, its well-formedness,
  and the three status names.
- `Extract` (`extract.dfy`): the field extractors. These are the players,
  league, round, date parsing, ISO formatting, status mapping and score.
- `Normalize` (`normalize.dfy`): `process_event`, the fallback event and the
  `process_events` loop.
- `Demo` (`demo.dfy`): `enhance_demo_event` with `clean_player_name`, and the
  random set generator `_generate_tennis_score`.
- `Enrich` (`enrich.dfy`): `merge_detailed_event` and the
  `process_events_with_details` loop.

The extractors are pure first-match searches, so they are modelled as
functions. The parts of the source that change things step by step are
methods, each proved equal to a specification function:

- the two list-building loops;
- the score generator's loop, with its `break`;
- the dict-assigning `merge_detailed_event` and `enhance_demo_event`.

Properties about those functions are then proved as lemmas.

How the source's effects are modelled:

- A Python exception is an explicit `Raised` outcome. A value that is truthy
  but not a `str`, reaching `.strip()`, `.split()`, `.lower()` or `in`, raises.
- `datetime.fromisoformat` and `isoformat` are parameters (`Env`). The clock
  is `Env.now`, one instant in microseconds.
- `random.choice` draws from a stream `rnd: nat -> nat` at a position `pos`:
  `choice(xs)` is `xs[rnd(pos) % len(xs)]`. Each operation returns the next
  position.
- The HTTP client's `get_event_by_id` is a function from the id string to one
  of three results: `Found(record)`, `NotFound` or `Failed` (it raised).

Behaviour of the code that is easy to misread, modelled as the code has it:

- The fallback event's league is `'Tennis'`, and a present but empty record
  processes to `{}` (`app/data_processor.py:15-16`, `:296`).
- A player field holding only whitespace, such as `strHomeTeam = '  '`, is
  truthy, so it is chosen and then stripped: the player is the empty string,
  not 'Unknown Player' (`:54-56`, `Extract.BlankHomeField`).
- With the status fields, a truthy value that is not a `str` (an int in
  `strGameStatus`, say) raises at `.lower()` when the scan reaches it, and
  `process_event` then returns the fallback event (`:195-199`,
  `Extract.StatusRaisesOnInt`).
- `parts[1]` of `event_name.split(sep)` is the text up to the next occurrence
  of the separator, not everything after the first one (`:66`, `:111`).
- The home part is stripped and then split; the tournament prefix is the
  first two words of the stripped part (`:70-78`).
- A start time with a UTC offset parses to an aware datetime. Subtracting it
  from the naive `datetime.now()` raises, so `process_event` returns the
  fallback event (`:217-221`, `:40-42`). `Extract.StatusWithoutNaiveDate` and
  `Normalize.ProcessEvent` state this.
- In `_generate_tennis_score` the branch for `home_games` not 6 or 7
  (`:511-512`) cannot be reached. `Demo.DrawSet` proves that every drawn set
  is 6-0..6-4, 7-5 or 7-6.
- `clean_player_name` removes every occurrence of the matching tournament
  prefix followed by a space, not just the leading one: 'WTA Finals WTA
  Jones' becomes 'Finals Jones' (`:440`, `Demo.CleanRemovesEveryPrefix`).
- A name that starts with a tournament prefix not followed by a space, such
  as 'WTAX FINALS Jones', is returned unchanged: the prefix test has
  already returned, so the upper-case rule is never tried (`:439-440`,
  `Demo.CleanKeepsPrefixWithoutSpace`).
- A generated set score puts the home player's games first, so a set the
  away player won reads like '4-6' (`:515-520`).
- A two-set match (`num_sets == 2`) can end level at one set each and still
  be reported `'Finished'` (`Demo.TwoSetMatchCanBeLevel`). The loop stops at
  `num_sets` sets without anyone reaching two.

## Model

Some functions only define a computation that other members are stated
against, and carry no contract of their own. The rows of the lemmas about
them say what they compute:

- `Extract.StatusFromDate` and `Extract.HasResult`, the date tier of
  `_map_status`: `StatusByElapsedTime`, `StatusWithoutNaiveDate` and
  `FinishedStaysFinished`.
- `Extract.HomeFromPrefix`: `HomeFromPrefixTrimmed`, `HomeFromPrefixWords`,
  `HomePlayerDropsTournamentPrefix` and `HomePlayerKeepsShortPrefix`.
- `Extract.ParseCandidate`: `ParseEventDate` and `FormatDatetime`.
- `Demo.CleanNames`: `AssignNames` and `EnhanceDemoEventNames`.
- `Demo.PlaySets`, `Demo.PlayedMatch` and `Demo.AwayGames`: `DrawSet`,
  `PlaySetsFacts`, `GeneratedMatch` and `GeneratedScoreShape`.
- `Normalize.SourceId`: `FallbackEvent` and `ProcessEvent`.
- `Enrich.EnrichedBy`: `EnrichedSnoc`, `EnrichedIsEnrichAll` and
  `EnrichedFollowKept`.
- `Enrich.StartRecord` and `Enrich.DetailValue`: `MergeStartTime` and
  `MergedFields`.

| member | source | states |
|---|---|---|
| PyStr.Strip | app/data_processor.py:56 | `str.strip()`: the result is a slice of the input, starting after the leading whitespace; neither end of the result is whitespace, only whitespace is cut, and the result is empty exactly when the input is all whitespace |
| PyStr.StripOfTrimmed | app/data_processor.py:70 | stripping a string with no whitespace at either end leaves it unchanged |
| PyStr.Words | app/data_processor.py:72 | `str.split()`: every word is non-empty and holds no whitespace; there are no words exactly when the string is all whitespace |
| PyStr.WordsOfJoin | app/data_processor.py:76 | splitting `' '.join(words)` gives back the words, for words that are non-empty and hold no whitespace (the round trip of join and split) |
| PyStr.WordsOfJoinDrop | app/data_processor.py:76 | the round trip holds for the words after the first n |
| PyStr.WordsOfFirstPair | app/data_processor.py:128 | splitting `words[0] + ' ' + words[1]` gives the first two words |
| PyStr.WordsOfWordSpace | app/data_processor.py:124 | a word followed by a space and a rest splits into that word followed by the rest's words |
| PyStr.Find | app/data_processor.py:65 | the least index where the substring occurs, or -1 when there is none |
| PyStr.Contains | app/data_processor.py:65 | `sub in s` holds exactly when the substring occurs at some index |
| PyStr.ContainsChar | app/data_processor.py:167 | `'T' in s` for one character is membership of that character |
| PyStr.SplitTwo | app/data_processor.py:66 | the first two fields of `s.split(sep)`: the string starts with first + sep + second, and neither field contains the separator; the second field ends at the next occurrence of the separator or at the end, and the first field's length is the index of the first occurrence |
| PyStr.SplitTwoAt | app/data_processor.py:66 | a + sep + b, with the first occurrence of sep at the end of a and no sep inside b, splits into exactly (a, b) |
| PyStr.Replace | app/data_processor.py:169 | `s.replace(target, repl)` leaves a string without the target unchanged |
| PyStr.ReplaceOfChar | app/data_processor.py:169 | replacing a one-character target is the same as replacing each occurrence of that character on its own, left to right (ReplaceChar, a per-character reference) |
| PyStr.ReplaceCharAppend | app/data_processor.py:169 | replacing a character in a concatenation replaces it in each part |
| PyStr.ReplaceCharWithout | app/data_processor.py:169 | replacing a character that does not occur leaves the string unchanged |
| PyStr.ReplaceCharDrops | app/data_processor.py:169 | replacing a character with a text that does not hold it leaves none of it |
| PyStr.FindChar | app/data_processor.py:167 | the first index of a character holds that character, and no earlier index does |
| PyStr.ReplaceCharRemovesIt | app/data_processor.py:169 | replacing every 'Z' with a text that holds no 'Z' leaves no 'Z' |
| PyStr.Lower | app/data_processor.py:199 | `str.lower()` keeps the length, and lowers every character, so no upper-case letter remains |
| PyStr.NatToStr | app/data_processor.py:150 | the decimal digits of a natural number, with no leading zero other than for 0 itself |
| PyStr.ParseIntOfIntToStr | app/data_processor.py:270-271 | `int(str(i)) == i` for every integer, negative ones included |
| PyStr.ParseIntOfSignedDigits | app/data_processor.py:270-271 | `int()` of an optional minus and decimal digits is their value |
| PyStr.DigitsValueOfNatToStr | app/data_processor.py:150 | the digits of n read back as n |
| PyStr.WithoutUnderscores | app/data_processor.py:270-271 | removing the underscores that `int()` allows between digits: no underscore is left, a string of digits and underscores becomes all digits, and a string without underscores is unchanged |
| PyStr.WithoutUnderscoresAppend | app/data_processor.py:270-271 | the removal works piecewise: on a concatenation it is the removal on each part, concatenated |
| PyStr.WithoutUnderscoresDrops | app/data_processor.py:270-271 | an underscore between two parts is deleted and the parts are kept, so exactly the underscores are removed and every other character stays in order |
| PyStr.WithoutUnderscoresOfOne | app/data_processor.py:270-271 | a lone underscore is removed entirely |
| Values.Get | app/data_processor.py:21 | `dict.get(key)` is `None` for a missing key |
| Values.GetOr | app/data_processor.py:59 | `dict.get(key, default)` is the default for a missing key |
| Values.Or | app/data_processor.py:21 | `a or b`: truthy exactly when either is; it is a when a is truthy, and b when a is falsy |
| Values.ToIntOfToStr | app/data_processor.py:270-271 | `int(str(v))` of an int value gives back that int |
| Values.FirstTruthy | app/data_processor.py:54-56 | the index of the first truthy option; every earlier option is falsy |
| Values.FirstIndex | app/data_processor.py:64-65 | the first element where the test passes; every earlier element fails it |
| Values.Status.Name | app/data_processor.py:207 | a status name is one of 'Scheduled', 'In Play' and 'Finished' |
| Values.Lookup | app/data_processor.py:312 | `processed.get(key)` on an event is `None` for a missing key |
| Extract.SeparatorIndex | app/data_processor.py:63-65 | the first separator of ' vs ', ' VS ', ' v ', ' V ' that occurs in the title; no earlier one occurs |
| Extract.TitleSides | app/data_processor.py:63-68 | none exactly when no separator occurs; otherwise the first two fields of the split by the first separator that occurs |
| Extract.ExtractPlayer | app/data_processor.py:45-115 | raises exactly when the chosen text is not a `str` (the first truthy option, or else a truthy title); a result has no whitespace at either end |
| Extract.ExtractHomePlayer | app/data_processor.py:45-83 | as ExtractPlayer, over 'strHomeTeam', 'strPlayer' and 'strHomePlayer' |
| Extract.ExtractAwayPlayer | app/data_processor.py:86-115 | as ExtractPlayer, over 'strAwayTeam', 'strOpponent' and 'strAwayPlayer' |
| Extract.PlayerFromField | app/data_processor.py:54-56 | the first truthy option, stripped, wins |
| Extract.PlayerWithoutSeparator | app/data_processor.py:59-83 | with no truthy option, and a 'strEvent' that is falsy (missing, None, 0 or '') or a text with no separator, the player is 'Unknown Player' |
| Extract.PlayerFromTitle | app/data_processor.py:64-81 | otherwise home is the home-part rule applied to the first field, and away is the second field stripped |
| Extract.HomePlayerDropsTournamentPrefix | app/data_processor.py:70-78 | a home part of more than two words loses its first two words, which are taken to be the tournament |
| Extract.HomePlayerKeepsShortPrefix | app/data_processor.py:79-81 | a home part of at most two words is kept whole, stripped |
| Extract.HomeFromPrefixTrimmed | app/data_processor.py:70-81 | the home part taken from a title has no whitespace at either end |
| Extract.HomeFromPrefixWords | app/data_processor.py:72-76 | the words of the home player are the home part's words after the first two |
| Extract.BlankHomeField | app/data_processor.py:54-56 | a whitespace-only 'strHomeTeam' such as '  ' is truthy and is taken, so the home player is the empty string, not 'Unknown Player' |
| Extract.ExtractLeague | app/data_processor.py:118-144 | raises exactly when a truthy title is not a `str`, or the title has fewer than two words and the first truthy league field is not a `str` |
| Extract.LeagueFromTitle | app/data_processor.py:121-130 | a title of two or more words gives a league whose words are the title's first two |
| Extract.LeagueOfTitleWords | app/data_processor.py:128 | that league is exactly the first two words joined by one space |
| Extract.LeagueFromField | app/data_processor.py:133-142 | otherwise the first truthy of 'strLeague', 'strSeason', 'strTournament', 'strCompetition', stripped |
| Extract.LeagueDefault | app/data_processor.py:144 | with none of those, 'ATP Tour' |
| Extract.ExtractRound | app/data_processor.py:147-150 | none exactly when 'strRound', 'intRound' and 'strStage' are all falsy; otherwise `str()` of the first truthy one in that order, stripped |
| Extract.IsoInput | app/data_processor.py:167-177 | the text handed to `fromisoformat`: with a 'T' it is the text with every 'Z' replaced by '+00:00' and holds no 'Z'; a 10-character date with '-' gets 'T12:00:00' appended; anything else is passed as it is |
| Extract.ParseEventDate | app/data_processor.py:235-259 | none exactly when no date option parses; otherwise the first truthy option that parses wins |
| Extract.FormatDatetime | app/data_processor.py:153-183 | the ISO text of the first option that parses; the current time when none does |
| Extract.KeywordIndex | app/data_processor.py:202-206 | the first keyword occurring in the text; no earlier keyword occurs |
| Extract.KeywordStatus | app/data_processor.py:199-214 | never 'Scheduled'; 'In Play' exactly when an in-play keyword occurs in the lower-cased text; 'Finished' exactly when none does but a finished keyword occurs |
| Extract.ExplicitStatus | app/data_processor.py:195-214 | an explicit status, from the first status field with a keyword, is never 'Scheduled' |
| Extract.ExplicitStatusRaises | app/data_processor.py:195-199 | the scan over 'strStatus', 'strProgress', 'strGameStatus' raises exactly when, scanning in that order past fields that are falsy or name no status, it reaches a truthy field that is not a `str` (`.lower()` raises) |
| Extract.ExplicitStatusNames | app/data_processor.py:195-214 | the first field that is a truthy text naming a status, reached past fields that are falsy or name no status, gives that status |
| Extract.ExplicitStatusNone | app/data_processor.py:195-214 | the scan finds no status exactly when every field is falsy or a text that names no status |
| Extract.KeywordTextNonEmpty | app/data_processor.py:196-197 | only a non-empty (truthy) text names a status, since every keyword is non-empty |
| Extract.MapStatus | app/data_processor.py:186-232 | `_map_status`: the first field that names a status, reached in order past falsy and status-less fields, gives that status; a truthy non-`str` field reached first raises; with every field falsy or status-less, the date tier decides |
| Extract.StatusProgressDecides | app/data_processor.py:189-214 | with a falsy 'strStatus', a 'strProgress' text naming a status gives that status |
| Extract.StatusRaisesOnInt | app/data_processor.py:191-199 | with 'strStatus' and 'strProgress' falsy, a non-zero int in 'strGameStatus' raises, whatever the date |
| Extract.StatusFieldDecides | app/data_processor.py:195-214 | a 'strStatus' with a keyword decides the status, whatever the date says |
| Extract.StatusFieldFirst | app/data_processor.py:195-214 | the status fields after the first are not consulted once it has a keyword |
| Extract.FinalSetKeyword | app/data_processor.py:202-207 | a text holding 'final set' is 'In Play', although it also holds the finished keyword 'final' |
| Extract.FinalSetIsInPlay | app/data_processor.py:202-207 | so a 'strStatus' holding 'final set' maps to 'In Play' |
| Extract.StatusByElapsedTime | app/data_processor.py:217-232 | with no explicit status: more than 4 hours past is 'Finished'; between 1 and 4 hours past is 'Finished' exactly when there is a result indicator; at most 1 hour past is 'Scheduled' |
| Extract.StatusWithoutNaiveDate | app/data_processor.py:217-232 | no parsable date means 'Scheduled'; a date with a UTC offset raises at the subtraction |
| Extract.FinishedStaysFinished | app/data_processor.py:217-232 | a status that is 'Finished' stays 'Finished' when checked later |
| Extract.SameParse | app/data_processor.py:235-259 | the parsed date does not depend on the clock |
| Extract.ExtractScore | app/data_processor.py:262-286 | set counts exactly when both scores are present and parse as int; never a generated score; the match status is `strStatus or strProgress`; the raw score is the first truthy of 'strScore' and 'strResult'; none exactly when neither is available |
| Extract.SinnerAlcarazExample | main.py:179-186 | 'US Open Sinner vs Alcaraz' gives home 'Sinner', away 'Alcaraz' and league 'US Open' |
| Extract.ExamplePlayers | main.py:179-185 | the same players for any record with that title and no player field |
| Extract.ExampleLeague | main.py:186 | the same league for any record with that title |
| Extract.ExampleTitleSides | main.py:180 | that title splits at ' vs ' into 'US Open Sinner' and 'Alcaraz' |
| Extract.ExampleHomeWords | main.py:180 | the home part 'US Open Sinner' splits into the words 'US', 'Open' and 'Sinner' |
| Extract.WordsOfThree | app/data_processor.py:72-76 | splitting three non-empty words without whitespace, joined by single spaces, gives back those three words |
| Extract.LettersHaveNoSpace | app/data_processor.py:72 | a word of ASCII letters holds no whitespace, so `split()` keeps it whole |
| Normalize.CoreEvent | app/data_processor.py:20-30 | the nine core fields make a well-formed event with the given id |
| Normalize.CanonicalEvent | app/data_processor.py:20-36 | well-formed, with the given id; 'venue' and 'city' are present exactly when the record's values are truthy, and hold those values |
| Normalize.WithTruthy | app/data_processor.py:33-36 | `if v: ev[key] = v` adds the key exactly when v is truthy, and changes nothing else |
| Normalize.BuildEvent | app/data_processor.py:18-38 | the try block raises exactly when an extractor raises: a non-text player or league source, or an aware date reaching the status |
| Normalize.BuiltEvent | app/data_processor.py:20-38 | without an exception, each field is its extractor's result |
| Normalize.FallbackEvent | app/data_processor.py:289-301 | `_create_fallback_event`: well-formed, with exactly the core fields; the id is the record's `idEvent or id` when that is truthy and 'unknown' otherwise, and 'external_event_id' is the same; both players 'Unknown Player', league 'Tennis', start time the ISO text of the current time, status 'Scheduled', no score and no round |
| Normalize.ProcessEvent | app/data_processor.py:11-42 | `{}` exactly for an empty record; otherwise well-formed; the fallback event when extraction raises, else the record's `idEvent or id` as the id |
| Normalize.ProcessEventKeptIff | app/data_processor.py:11-42 | the processed event has a truthy id exactly when the record is non-empty and has a truthy id, or extraction raises |
| Normalize.ProcessEventVenue | app/data_processor.py:33-36 | 'venue' and 'city' are present exactly when truthy in the record and nothing raised, and then they hold the record's values |
| Normalize.KeptBy | app/data_processor.py:309-313 | the kept events are never more than the records |
| Normalize.KeptIsFilter | app/data_processor.py:309-313 | the kept events are, in order, the processed events with a truthy id, and exactly those: an order-preserving filter |
| Normalize.KeptAppend | app/data_processor.py:310-313 | processing a concatenation keeps the events of each part, in order |
| Normalize.KeptPush | app/data_processor.py:310-313 | one more record adds its processed event at the end exactly when that event has a truthy id |
| Normalize.KeptHaveIds | app/data_processor.py:312 | every kept event has a truthy id |
| Normalize.KeptAreProcessed | app/data_processor.py:311-313 | every kept event is the processed form of some record |
| Normalize.KeptEvents | app/data_processor.py:304-316 | what `process_events` returns: no more events than records, each the processed form of some record, well-formed and with a truthy id |
| Normalize.ProcessEvents | app/data_processor.py:304-316 | the loop returns exactly the kept processed events, in order (an empty list for no events) |
| Demo.Choice | app/data_processor.py:497 | `random.choice(xs)` is an element of xs |
| Demo.PrefixIndex | app/data_processor.py:437-439 | the first of the tournament prefixes the name starts with; it starts with none of the earlier ones |
| Demo.CleanPlayerName | app/data_processor.py:433-445 | a name of at most two words is returned unchanged |
| Demo.CleanRemovesEveryPrefix | app/data_processor.py:436-440 | a name of more than two words that starts with a tournament prefix is the name with every occurrence of that prefix followed by a space removed, wherever it stands (so 'WTA Finals WTA Jones' gives 'Finals Jones'); the upper-case rule is not tried |
| Demo.CleanKeepsPrefixWithoutSpace | app/data_processor.py:439-440 | a name that starts with a tournament prefix but never holds that prefix followed by a space (such as 'WTAX FINALS Jones') is returned unchanged, even with two upper-case first words |
| Demo.CleanKeepsOrdinaryName | app/data_processor.py:436-445 | a name of more than two words with no tournament prefix and first two words not both upper case is returned unchanged |
| Demo.PrefixesExclusive | app/data_processor.py:437-439 | a name starts with at most one of the tournament prefixes |
| Demo.CleanRemovesTournamentPrefix | app/data_processor.py:436-440 | a name of more than two words made of a tournament prefix, a space and a rest that holds no further '<prefix> ' cleans to that rest |
| Demo.ReplaceAtStart | app/data_processor.py:440 | `replace` of a target that occurs only at the start removes just that start |
| Demo.CleanDropsUpperCaseWords | app/data_processor.py:443-444 | with no prefix, a name of more than two words whose first two words are upper case loses those two words |
| Demo.CleanOfUpperCaseWords | app/data_processor.py:444 | that result is the remaining words joined by single spaces |
| Demo.DrawSet | app/data_processor.py:505-513 | every drawn set is 6-0 to 6-4, 7-5 or 7-6 |
| Demo.SetsAddUp | app/data_processor.py:517-520 | the home and away set counts add up to the number of sets |
| Demo.GenerateTennisScore | app/data_processor.py:492-532 | the loop, with its `break`, returns the generated score and the next draw position |
| Demo.AppendSet | app/data_processor.py:503-525 | one turn of the loop appends one set, counts its winner and stops when the match is over |
| Demo.MatchOverIff | app/data_processor.py:523-524 | the stop test holds exactly when the leader has the sets a best-of-3 or best-of-5 needs |
| Demo.PlayStep | app/data_processor.py:503-525 | a set played before the match is over keeps the loop's invariant |
| Demo.PlaySetsFacts | app/data_processor.py:503-525 | the loop keeps its earlier sets and draws three numbers per set; it ends at `num_sets` sets or when the match is over |
| Demo.GeneratedMatch | app/data_processor.py:492-532 | 2 to 5 sets chosen; 1 to `num_sets` played, all valid; the match was never over before the last set; nobody passes the sets needed to win, and a match cut short has a winner with exactly those sets |
| Demo.OddMatchHasWinner | app/data_processor.py:523-525 | with 3 or 5 sets chosen, the match always has a winner with exactly the sets needed |
| Demo.GeneratedScoreShape | app/data_processor.py:527-532 | the score is 'Finished'; its set counts add up to its number of set scores, one per set played, each a valid set |
| Demo.GeneratedScore | app/data_processor.py:492-532 | `_generate_tennis_score`: a generated score marked 'Finished', with at least one set and set counts adding up to the number of set scores; at least one draw is made |
| Demo.TwoSetMatchCanBeLevel | app/data_processor.py:497-532 | a two-set match can end one set all and still be reported 'Finished' |
| Demo.KeepsOutsideCompose | app/data_processor.py:425-487 | changing fields in two stages changes nothing outside the union of their fields |
| Demo.WithNames | app/data_processor.py:447-448 | the two names are set and nothing else changes |
| Demo.PickLeague | app/data_processor.py:456-457 | 'ATP World Tour' becomes one of the first four tournaments; any other league stays, and nothing else changes |
| Demo.PickVenue | app/data_processor.py:460-471 | venue and city become a matching pair from the venue list, using one draw; nothing else changes |
| Demo.PickRound | app/data_processor.py:480-481 | a falsy or '46' round becomes a round name; any other stays, and nothing else changes |
| Demo.AddScore | app/data_processor.py:484-487 | a 'Finished' event gets the generated score; any other is unchanged |
| Demo.AssignNames | app/data_processor.py:425-448 | the copy with cleaned names is CleanNames of the event, defaults 'Player A' and 'Player B' included |
| Demo.AssignLeague | app/data_processor.py:456-457 | the league assignment is PickLeague |
| Demo.AssignVenue | app/data_processor.py:469-471 | the venue and city assignments are PickVenue |
| Demo.AssignRound | app/data_processor.py:480-481 | the round assignment is PickRound |
| Demo.AssignScore | app/data_processor.py:484-487 | the score assignment, calling the generator method, is AddScore |
| Demo.Enhance | app/data_processor.py:421-489 | the assignments of `enhance_demo_event`, in order, compute EnhanceDemoEvent |
| Demo.EnhanceDemoEventKeys | app/data_processor.py:421-489 | the result adds the names, venue and city, a round where one is needed and a score for a finished match; no field outside those changes; at least one draw is made |
| Demo.EnhanceDemoEventNames | app/data_processor.py:428-448 | both names are cleaned, a missing one first defaulting to 'Player A' or 'Player B'; venue and city are a pair from the list |
| Demo.EnhanceDemoEventLeague | app/data_processor.py:456-457 | 'ATP World Tour' becomes one of the first four tournaments; any other league stays |
| Demo.EnhanceDemoEventRound | app/data_processor.py:480-481 | a falsy or '46' round becomes a round name; any other stays |
| Demo.EnhanceDemoEventScore | app/data_processor.py:484-487 | a 'Finished' event gets a score generated after the other draws; any other keeps its own score |
| Demo.EnhanceDemoEvent | app/data_processor.py:421-489 | `enhance_demo_event` changes no field outside the names, league, venue, city, round and score, and makes at least one draw |
| Demo.RoundNamesNot46 | app/data_processor.py:474-481 | '46' is not one of the round names, so a replaced round is never '46' again |
| Enrich.MergedWith | app/data_processor.py:370-415 | the merge keeps every field of the basic event, adds none but detail fields, and keeps every other field's value |
| Enrich.MergeDetailedEvent | app/data_processor.py:366-419 | the basic event when mapping the detail status raises; otherwise no field is dropped, and only detail fields change |
| Enrich.MergedLookup | app/data_processor.py:373-413 | each detail field holds its update when there is one, and the basic event's value otherwise |
| Enrich.MergedFields | app/data_processor.py:373-413 | the same, written out for each of the ten fields |
| Enrich.MergeCopiesTruthyFields | app/data_processor.py:373-380 | names, league, venue, city and description are copied exactly when truthy in the detail record |
| Enrich.MergeRound | app/data_processor.py:383-386 | 'strRound' is preferred to `str(intRound)`; with neither, the round stays |
| Enrich.MergeStartTime | app/data_processor.py:389-393 | 'strTimestamp' is preferred to `dateEvent + 'T' + strTime`, formatted as `_format_datetime` does; with neither, the start time stays |
| Enrich.MergeStatus | app/data_processor.py:396-398 | a detail status other than 'Scheduled' overrides; otherwise the status stays, so a merge never sets an event back to 'Scheduled' |
| Enrich.MergeScore | app/data_processor.py:401-403 | a detail score overrides; with none, the score stays |
| Enrich.MergeIdempotent | app/data_processor.py:366-419 | merging the same detail record twice is merging it once |
| Enrich.MergedWithTwice | app/data_processor.py:370-415 | the same for the merge given status, start and score |
| Enrich.MergeEmptyDetail | app/data_processor.py:366-419 | merging an empty detail record leaves the event unchanged |
| Enrich.EmptyDetailStatus | app/data_processor.py:186-232 | an empty record maps to 'Scheduled' |
| Enrich.MergeWellFormed | app/data_processor.py:366-419 | a merge keeps a well-formed event well-formed when the copied names, league and round are text |
| Enrich.AssignIf | app/data_processor.py:373-374 | one guarded assignment sets the field exactly when the guard passes, and applies that field's update |
| Enrich.CopyNames | app/data_processor.py:373-380 | the name and league assignments apply their updates |
| Enrich.CopyMatchInfo | app/data_processor.py:383-403 | the round, start time, status and score assignments apply their updates |
| Enrich.CopyPlace | app/data_processor.py:406-413 | the venue, city and description assignments apply their updates |
| Enrich.CopyWithDetails | app/data_processor.py:370-415 | the ten assignments, in order, on a copy of the basic event, compute MergedWith |
| Enrich.Merge | app/data_processor.py:366-419 | `merge_detailed_event` step by step, with the except branch, computes MergeDetailedEvent |
| Enrich.TryEnrich | app/data_processor.py:327-353 | raises exactly when the fetch fails; a mismatched `idEvent` keeps the event; a matching detail record merges; no detail record enhances with demo data from the next draw position; nothing outside the merged or demo fields changes |
| Enrich.EnrichOne | app/data_processor.py:318-360 | one event through the try block and its except branch: the same cases, with a failed fetch keeping the event |
| Enrich.EnrichDetails | app/data_processor.py:327-353 | the try block, fetching then merging, keeping or enhancing, computes TryEnrich |
| Enrich.EnrichStep | app/data_processor.py:325-360 | an event is output exactly when its processed form has a truthy id, and it differs from that form only in merged or demo fields |
| Enrich.ProcessEventsWithDetails | app/data_processor.py:319-363 | the loop returns exactly the enriched events and the next draw position (an empty list for no events) |
| Enrich.EnrichedSnoc | app/data_processor.py:325-360 | one more record adds its enriched event when its processed form has a truthy id, and nothing otherwise |
| Enrich.EnrichedEvents | app/data_processor.py:319-363 | what `process_events_with_details` returns: one event per event `process_events` keeps, in order, each that kept event enriched on its own at the draw position the events before it leave |
| Enrich.EnrichAll | app/data_processor.py:325-360 | enriching a list of kept events, one after another, gives one event per kept event and never moves the draw position back |
| Enrich.EnrichAllAt | app/data_processor.py:325-360 | the k-th enriched event is the k-th kept event enriched at the draw position the first k events leave |
| Enrich.KeptWellFormed | app/data_processor.py:304-316 | every event `process_events` keeps is well-formed |
| Enrich.EnrichedIsEnrichAll | app/data_processor.py:319-363 | filtering and enriching in one loop is filtering first and then enriching the kept events in order; an event whose fetch raises is processed again and comes out as kept |
| Enrich.EnrichedFollowKept | app/data_processor.py:319-363 | the enriched list matches `process_events`' list one for one, in order: each output is its kept event enriched on its own (merged, kept or given demo data), so it differs from it only in merged or demo fields |
| Enrich.EnrichedWithUselessDetails | app/data_processor.py:339-348 | when every fetch fails or returns a mismatched event, the result is `process_events`' list, with no draws |
| Enrich.EnrichedWithoutDetails | app/data_processor.py:349-353 | when no fetch finds anything, each output is its kept event with demo data (`enhance_demo_event` at some draw position), with a venue and city from the demo list |
| Enrich.EnhancedNamesAndRound | app/data_processor.py:428-481 | demo data cleans both names, with the 'Player A' and 'Player B' defaults, replaces a falsy or '46' round by a round name, keeps any other round, and never leaves '46' |
| Enrich.NamesAndRoundOf | app/data_processor.py:474-481 | a round that is a round name or the kept event's own non-'46' round is never '46' |
| Enrich.EnrichedWithoutDetailsFields | app/data_processor.py:349-353 | when no fetch finds anything, every output has its kept event's names cleaned and a round that is never '46' |

## Left out

- Logging (`logger.*`) and the `print` calls have no effect on results and are not modelled.
- The HTTP client, `async`/`await` and `thesportsdb.py` are not part of this model. The fetch is a function from the id string to `Found`, `NotFound` or `Failed`.
- Each call of `get_event_by_id` is treated as answering the same way for the same id.
- `crud.py`, `models.py`, `schemas.py` and the web endpoints of `main.py` are not part of this model. The `/test-extraction` example appears only as lemmas.
- The grammar of `datetime.fromisoformat` and the text of `isoformat` are left abstract as `Env` parameters. `datetime.now()` is one instant, `Env.now`, in microseconds.
- The fallback event's `start_time` uses that same instant.
- The except branch of `process_events_with_details` processes the record again under the same `Env`. Re-reading the clock between the two calls is not modelled.
- Record values are `None`, `str` or `int` only. JSON floats, booleans, lists and objects are not modelled, and `str()` of them is not either.
- `lower`, `isupper` and the digits `int()` accepts are ASCII only. Unicode case mapping and non-ASCII digits are not modelled; `strip` and `split` use Python's full whitespace set.
- `random` is an injected stream of numbers. Its distribution and the order in which dict keys are kept are not modelled.
- Merge and enhancement work on a `dict.copy()` of the event. The model works on values, so the identity of dict objects and aliasing are not modelled.
- Enrich.TryEnrich: the demo shape it promises covers venue and city only; the remaining demo fields are stated by the Demo lemmas.

# Running coach bot: pace calculator, content store and subscriber registry

A Dafny model of the logic behind a Telegram bot for runners. The model covers three parts.

- **The pace calculator** (`handlers/pace_calculator.py`).
  - `parse_input` reads pace, distance, time and speed from free text. It uses a fixed list of regular-expression rules and then falls back to the list of all numbers in the text, including those inside unit and clock tokens.
  - `compute` derives the missing quantities from any two known ones.
  - `format_pace`, `format_time`, `format_distance` and `format_result` render the reply.
  - `handle_pace_message` ties these together for one incoming message.
- **The JSON content store** (`database/json_db.py`). It holds exercises, training complexes, education materials and terminology. It supports keyword search (`_normalize_query`, `_match_keywords`, `search_exercises`, `search_terminology`), first-match lookup by id and listing.
- **The subscriber registry** (`database/users_store.py`). It is a map of users plus a log of first visits. `add_user` records a /start press, `get_all_users` merges the log and the map, and `count_users` counts the users.

## Files

| file | contents |
|---|---|
| `wrappers.dfy` | `Option` and `Result` |
| `text.dfy` | characters and strings: `str.lower`, `str.strip`, substring containment, `\w+` words, decimal text of integers, `str.join` |
| `rounding.dfy` | Python's `round` (ties to even), `int()` truncation and the `:.0f` / `:.2f` formats |
| `quantities.dfy` | the four optional quantities (`Slots`) and their filling order |
| `pace_scan.dfy` | one matcher per regular expression of `parse_input`, leftmost search, `finditer` and `findall` |
| `pace_parse.dfy` | `parse_input`: the rule-by-rule function `Parse` and the method `ParseInput` |
| `pace_compute.dfy` | `compute`: the closed form `Solve` and the loop `Compute` |
| `pace_format.dfy` | the four formatters |
| `pace_handler.dfy` | `handle_pace_message` |
| `json_db.dfy` | the content store |
| `users_store.dfy` | the subscriber registry |

## Modelling choices

**Numbers and rounding**
- Quantities are exact `real`s.
- Python's `round` is `Rounding.RoundHalfEven`, and `int()` of a float is `Rounding.Trunc`.

**Parsing**
- Each regular expression of `parse_input` is a deterministic matcher at a fixed start position. Leftmost search (`re.search`), `re.finditer` and `re.findall` are written over these matchers.
- `\b` is a change between word and non-word characters.
- `parse_input` lowercases and strips for most patterns, but runs the speed, pace-clock and time-clock patterns on the raw text. The model does the same.

**Errors**
- Python's `ZeroDivisionError` in `compute` is `Failure(DivisionByZero)`. `HandlePaceMessage` passes it on.

**The stores**
- `JsonDB` and `Registry` are classes whose fields are the loaded lists and maps.
- The registry's users are keyed by the user id itself. The source keys them by `str(user_id)`, and `Text.IntStrInjective` proves that different ids have different texts, so the two keyings agree.
- Python dictionaries keep insertion order. The registry keeps that order explicitly as `order`.

**Behaviour of the code worth knowing**
- `format_time` omits a zero minutes part between hours and seconds: 3605 seconds is "1 ч 5 сек".
- The reply writes the distance with `format_distance` as written, rounding 5.5 km to "6 км" (see "## Findings"). `PaceFormat.CorrectedResultLines` is the same reply with the intended formatter.
- The km pattern has no guard against a following "/ч", so a speed "12 км/ч" is also read as the distance 12 km (`PaceParse.SpeedAlsoReadAsKm`, `PaceParse.SpeedImpliesDistance`).
- "5 км 500 м" with a space after "км" is read as 5 km by the plain km pattern. The combined pattern never gets to it (`PaceParse.SpacedKmMetresNeverCombined`).
- The pace pattern `\b(\d+):(\d{2})\b` stops at any non-word character, and ':' is one. So the `H:MM` of a finish time `H:MM:SS` with H between 2 and 20 is also read as a pace: "3:30:00 марафон" gives the pace 3:30 min/km next to the time 210 minutes and the marathon distance, three values that contradict each other (`PaceScan.HmsStartsPaceClock`, `PaceParse.HmsAlsoReadAsPace`).
- The number list of the fallbacks is every number of the text, the digits of unit and clock tokens included; the fallbacks do not skip the pace token. "5:30 10" is read as pace 5:30, distance 5 km and time 30 minutes, and "4:45 21" as pace 4:45, 4 km and 45 minutes (`PaceScan.PaceClockNumbers`, `PaceParse.PaceDigitsReadAsDistanceAndTime`).
- The help text offers "55:30 10" as a time and a distance. 55 is outside the pace window and above 23, so 55:30 is read as the time 55.5 minutes; the number list is 55, 30, 10, and no fallback applies (the time is already set, no pace is known, 55 is outside [3, 15], and there are three numbers). Only one value is read, so that example gets the prompt.

**Dead branches**
- The last three rules of the `compute` loop can never be the first applicable rule. `Compute` marks them as unreachable and proves this.
- The seconds branch of the `MM:SS(:SS)?` time rule is likewise never the one that sets the time (`PaceParse.ClockSecondsReadByHms`).

## Model

| member | source | states |
|---|---|---|
| PaceParse.OrElse | handlers/pace_calculator.py:113-123 | A later pattern only fills an empty slot: the first present value wins, the later pattern's value is taken when the slot is empty, and the result is present iff either input is. |
| PaceParse.FirstPace | handlers/pace_calculator.py:106-110 | The pace is A + BB/60 of the first `\b`-delimited `A:BB` (a ':' is a delimiter, so the H:MM of an H:MM:SS token counts) with 2 ≤ A ≤ 20 and BB < 60, so it lies in [2, 21) min/km. There is none iff no such token is in that window. |
| PaceParse.FirstNearPaceDistance | handlers/pace_calculator.py:166-170 | The distance chosen next to a known pace is the first number of the text that passes the window test. There is none iff no number passes. |
| PaceParse.DistanceTimeRule | handlers/pace_calculator.py:161-165 | With distance and time both empty and the first two numbers in the windows [0.5, 50] and [5, 400], they become the distance and the time. Otherwise nothing changes. |
| PaceParse.NearPaceRule | handlers/pace_calculator.py:166-170 | With a pace and no distance, the distance becomes the first number that passes the near-pace test, if any. Otherwise nothing changes. |
| PaceParse.PaceDistanceRule | handlers/pace_calculator.py:171-175 | With pace and distance both empty and the first two numbers in [3, 15] and [0.5, 50], they become the pace and the distance. Otherwise nothing changes. |
| PaceParse.SingleNumberRule | handlers/pace_calculator.py:176-177 | With no distance and exactly one number, in [0.5, 50], that number becomes the distance. Otherwise nothing changes. |
| PaceParse.ReadPace | handlers/pace_calculator.py:106-110 | The `finditer` loop with `break` returns exactly `FirstPace` of the clock tokens. |
| PaceParse.ReadDistance | handlers/pace_calculator.py:95-123 | The distance stage gives race words priority, then km, then "X км Y м", then metres. |
| PaceParse.ReadClockTime | handlers/pace_calculator.py:126-141 | The time is read from `H:MM:SS` first, then from `MM:SS` or `H:MM` with the pace-window and hour/minute cases. |
| PaceParse.ReadTime | handlers/pace_calculator.py:126-157 | The time stage: clock tokens, then the ч / мин / сек rules in order. A lone "N сек" counts only when no "N мин" appears. |
| PaceParse.ReadNearPaceDistance | handlers/pace_calculator.py:166-170 | The loop over the numbers of the text returns exactly `FirstNearPaceDistance`. |
| PaceParse.ParseInput | handlers/pace_calculator.py:84-178 | `parse_input` equals the rule-by-rule function `Parse`. |
| PaceParse.ParseKeepsUnitValues | handlers/pace_calculator.py:159-177 | The number-list fallbacks never overwrite a value found by a unit pattern, and never touch the speed. |
| PaceParse.NamedDistanceWins | handlers/pace_calculator.py:95-98 | "полумарафон"/"half" or "марафон" fixes the distance, whatever numbers follow. |
| PaceParse.ParseWithoutDigits | handlers/pace_calculator.py:84-178 | A text without digits yields at most a race distance; every other slot stays empty. |
| PaceParse.SpeedAlsoReadAsKm | handlers/pace_calculator.py:101-115 | Wherever "N км/ч" matches, the km pattern matches too, with the same number. |
| PaceParse.SpeedImpliesDistance | handlers/pace_calculator.py:101-115 | In a stripped message, a recognised speed always comes with a distance. |
| PaceParse.SpacedKmMetresReadAsKm | handlers/pace_calculator.py:113-119 | "X км Y м" with a space after "км" is read by the km pattern as X km. |
| PaceParse.FallbacksKeep | handlers/pace_calculator.py:159-177 | The four number-list fallbacks, applied in order, only fill empty slots and leave the speed as it was. |
| PaceParse.KmBeforeSpace | handlers/pace_calculator.py:113-115 | A number followed by "км" or "km" and then a space is read by the km pattern as that number. |
| PaceParse.SpacedKmMetresNeverCombined | handlers/pace_calculator.py:113-119 | For such text the "X км Y м" rule never contributes to the distance. |
| PaceParse.HmsAlsoReadAsPace | handlers/pace_calculator.py:105-128 | A text that opens with `H:MM:SS`, 2 ≤ H ≤ 20 and MM < 60, gets H + MM/60 as its pace and H·60 + MM + SS/60 as its time. |
| PaceParse.PaceDigitsReadAsDistanceAndTime | handlers/pace_calculator.py:159-165 | When the text opens with a pace `A:BB` that no '.' follows and the unit patterns give neither distance nor time, A and BB become the distance and the time whenever A is in [0.5, 50] and BB ≥ 5; the pace stays A + BB/60 if it is in the window. |
| PaceParse.FallbacksDistanceTime | handlers/pace_calculator.py:159-177 | When the first fallback fires, the later three keep its distance and time and the pace as it was. |
| PaceScan.HmsStartsPaceClock | handlers/pace_calculator.py:106-126 | Where `(\d+):(\d{2}):(\d{2})` matches at a word boundary, `\b(\d+):(\d{2})\b` matches too, with the same two first groups, ending at the second ':'. |
| PaceScan.PaceClockNumbers | handlers/pace_calculator.py:160 | `findall(r"\d+\.?\d*")` reads a pace token `A:BB` that no '.' follows as the two numbers A and BB, then goes on after the token. |
| PaceScan.SpeedAt | handlers/pace_calculator.py:101 | Definition of the speed pattern at one position; its properties are `PaceParse.SpeedAlsoReadAsKm` and `PaceParse.SpeedImpliesDistance`. |
| PaceScan.PaceClockAt | handlers/pace_calculator.py:106 | A match ends after its start and has no third group. Its properties are `PaceScan.HmsStartsPaceClock`, `PaceScan.PaceClockNumbers` and `PaceParse.ReadPace`. |
| PaceScan.KmAt | handlers/pace_calculator.py:113 | Definition of the km pattern; its properties are `PaceParse.KmBeforeSpace` and `PaceParse.SpeedAlsoReadAsKm`. |
| PaceScan.KmMetresAt | handlers/pace_calculator.py:117 | Definition of the "X км Y м" pattern; its property is `PaceParse.SpacedKmMetresNeverCombined`. |
| PaceScan.MetresAt | handlers/pace_calculator.py:121 | Definition of the metres pattern; it is used by `PaceParse.ReadDistance` and covered by `PaceParse.ParseWithoutDigits`. |
| PaceScan.HmsAt | handlers/pace_calculator.py:126 | A match always has its third group. Its properties are `PaceParse.ClockSecondsReadByHms` and `PaceParse.HmsAlsoReadAsPace`. |
| PaceScan.ClockAt | handlers/pace_calculator.py:130 | Definition of the `MM:SS(:SS)?` pattern; its properties are `PaceParse.ReadClockTime` and `PaceParse.ClockSecondsReadByHms`. |
| PaceScan.HourMinSecAt | handlers/pace_calculator.py:143 | Definition of the "H ч M мин S сек" pattern; it is used by `PaceParse.ReadTime`. |
| PaceScan.MinSecAt | handlers/pace_calculator.py:146 | Definition of the "M мин S сек" pattern; it is used by `PaceParse.ReadTime`. |
| PaceScan.HourAt | handlers/pace_calculator.py:149 | Definition of the "H ч M" pattern; it is used by `PaceParse.ReadTime`. |
| PaceScan.MinAt | handlers/pace_calculator.py:152 | Definition of the "M мин" pattern; it is used by `PaceParse.ReadTime` and by the "N сек" guard. |
| PaceScan.SecAt | handlers/pace_calculator.py:155 | Definition of the "N сек" pattern; it is used by `PaceParse.ReadTime`. |
| PaceScan.Numbers | handlers/pace_calculator.py:160 | Definition of the number list; its properties are `PaceScan.PaceClockNumbers`, `PaceParse.PaceDigitsReadAsDistanceAndTime` and `PaceParse.ParseWithoutDigits`. |
| PaceParse.Parse | handlers/pace_calculator.py:84-178 | Definition of the parser as a chain of rules; its properties are `PaceParse.ParseInput`, `PaceParse.ParseKeepsUnitValues`, `PaceParse.NamedDistanceWins`, `PaceParse.ParseWithoutDigits`, `PaceParse.HmsAlsoReadAsPace` and `PaceParse.PaceDigitsReadAsDistanceAndTime`. |
| PaceParse.ClockSecondsReadByHms | handlers/pace_calculator.py:126-135 | A clock token with seconds is always read by the `H:MM:SS` rule first. |
| PaceCompute.Solve | handlers/pace_calculator.py:181-220 | Definition of `compute` in closed form; its properties are `PaceCompute.Compute`, `PaceCompute.SolveCompletes`, `PaceCompute.SolveConsistent`, `PaceCompute.SolveNonZero`, `PaceCompute.SolveZeroDivisors`, `PaceCompute.SolveIdempotent` and `PaceCompute.SolveRecovers`. |
| PaceCompute.SettledPace | handlers/pace_calculator.py:195-209 | A given pace is kept. A pace derived from the speed satisfies pace · speed = 60; one derived from distance and time satisfies pace · distance = time. It is absent iff pace, speed and one of distance or time are all missing. The division error occurs iff the pace must come from a zero speed or a zero distance. |
| PaceCompute.Fill | handlers/pace_calculator.py:195-218 | Deriving from the pace keeps every given value. The result is complete iff distance or time is known. |
| PaceCompute.Compute | handlers/pace_calculator.py:181-220 | Fewer than two values are returned unchanged. Otherwise the `while True` loop ends in `Solve`, a division by zero included. The loop invariant is that each rule leaves `Solve` unchanged. |
| PaceCompute.SpeedFromPace | handlers/pace_calculator.py:195-197 | Filling the speed from the pace leaves the outcome of `compute` unchanged; a zero pace is the division error. |
| PaceCompute.PaceFromSpeed | handlers/pace_calculator.py:198-200 | Filling the pace from the speed leaves the outcome unchanged; a zero speed is the division error. |
| PaceCompute.TimeFromDistance | handlers/pace_calculator.py:201-203 | Filling the time from distance and pace leaves the outcome unchanged. |
| PaceCompute.DistanceFromTime | handlers/pace_calculator.py:204-206 | Filling the distance from time and pace leaves the outcome unchanged; a zero pace is the division error. |
| PaceCompute.PaceFromDistanceTime | handlers/pace_calculator.py:207-209 | Filling the pace from time and distance leaves the outcome unchanged; a zero distance is the division error. |
| PaceCompute.SolveCompletes | handlers/pace_calculator.py:191-219 | Given values are kept. All four slots are filled unless only pace and speed were given, in which case nothing changes. |
| PaceCompute.SolveConsistent | handlers/pace_calculator.py:193-218 | From two independent values the results obey speed · pace = 60 and time = distance · pace. |
| PaceCompute.FillConsistent | handlers/pace_calculator.py:195-209 | Deriving the missing slots from a non-zero pace that agrees with the given values yields speed · pace = 60 and time = distance · pace. |
| PaceCompute.SolveNonZero | handlers/pace_calculator.py:195-218 | With no zero among the given values there is no division by zero, and no derived value is zero. |
| PaceCompute.SolveZeroDivisors | handlers/pace_calculator.py:196-208 | A zero pace or speed to invert, or a zero distance to divide by, raises the division error. |
| PaceCompute.SolveIdempotent | handlers/pace_calculator.py:181-220 | Computing again from a computed result changes nothing. |
| PaceCompute.RecoverFromPaceDistance | handlers/pace_calculator.py:201-210 | From pace and distance of a consistent non-zero result, `compute` rebuilds the whole result. |
| PaceCompute.RecoverFromPaceTime | handlers/pace_calculator.py:195-206 | Likewise from pace and time. |
| PaceCompute.RecoverFromDistanceTime | handlers/pace_calculator.py:195-209 | Likewise from distance and time. |
| PaceCompute.RecoverFromDistanceSpeed | handlers/pace_calculator.py:198-203 | Likewise from distance and speed. |
| PaceCompute.RecoverFromTimeSpeed | handlers/pace_calculator.py:198-206 | Likewise from time and speed. |
| PaceCompute.SolveRecovers | handlers/pace_calculator.py:193-218 | Round trip: any two independent quantities of a consistent non-zero result give back the whole result. |
| Rounding.RoundHalfEven | handlers/pace_calculator.py:225 | `round(x)` is within ½ of x, and a tie goes to the even integer. |
| Rounding.Trunc | handlers/pace_calculator.py:224 | `int(x)` truncates toward zero. |
| PaceFormat.FormatPace | handlers/pace_calculator.py:223-229 | Definition of `format_pace`; its properties are `PaceFormat.PaceReading` and `PaceFormat.FormatPaceReadsBack`. |
| PaceFormat.FormatTime | handlers/pace_calculator.py:232-244 | Definition of `format_time`; its properties are `PaceFormat.Breakdown` and `PaceFormat.TimePartsFaithful`. |
| PaceFormat.FormatDistanceAsWritten | handlers/pace_calculator.py:247-254 | Definition of `format_distance` as written; its properties are `PaceFormat.FormatDistanceAsWrittenRoundsAway` and `PaceFormat.AsWrittenNeverKmAndMetresFromOneKm`. |
| PaceFormat.FormatResult | handlers/pace_calculator.py:257-267 | Definition of `format_result`, the lines joined by newlines; its properties are `PaceFormat.ResultLinesWith` and `PaceFormat.CorrectedDiffersOnlyInDistance`. |
| PaceFormat.PaceReading | handlers/pace_calculator.py:223-229 | The shown minutes and seconds satisfy 0 ≤ s < 60 and m · 60 + s = round(pace · 60), the carry included. |
| PaceFormat.FormatPaceReadsBack | handlers/pace_calculator.py:223-229 | "M:SS" read back as seconds is the pace rounded to the nearest second. |
| PaceFormat.Breakdown | handlers/pace_calculator.py:233-236 | h · 3600 + m · 60 + s is the total, with 0 ≤ m, s < 60. |
| PaceFormat.TimePartsFaithful | handlers/pace_calculator.py:232-244 | The parts shown are never empty and add up to the total. They come in the order hours, minutes, seconds, show minutes and seconds below 60, and show a zero only for a zero total. |
| PaceFormat.FormatDistanceAsWrittenRoundsAway | handlers/pace_calculator.py:250-251 | As written, 5.5 km is printed "6 км", half a kilometre off. |
| PaceFormat.AsWrittenNeverKmAndMetresFromOneKm | handlers/pace_calculator.py:250-253 | As written, from 1 km up the "N.NN км (M м)" form never appears. |
| PaceFormat.DistanceShownWithinRounding | handlers/pace_calculator.py:247-254 | As corrected, every distance from 1 m up is shown to within 5 m, and "N км" is exact. |
| PaceFormat.ResultLinesWith | handlers/pace_calculator.py:257-267 | The reply is the header, then one line per known quantity in the order pace, distance, time, speed, each at its position and written by its formatter. `ResultLines` passes `format_distance` as written. |
| PaceFormat.CorrectedDiffersOnlyInDistance | handlers/pace_calculator.py:257-267 | The reply with the intended distance formatter differs from the reply as written at most in the distance line. |
| PaceHandler.ReplyTo | handlers/pace_calculator.py:297-302 | Definition of the reply to a stripped non-empty text; its properties are `PaceHandler.HandlePaceMessage`, `PaceHandler.NoDigitsGetsPrompt` and `PaceHandler.NonZeroGetsFullResult`. |
| PaceHandler.HandlePaceMessage | handlers/pace_calculator.py:290-302 | A missing or blank message gives no reply. Otherwise the reply is `ReplyTo` of the stripped text: the prompt when fewer than two values are read, else the formatted result of `compute`, or its division error. |
| PaceHandler.NoDigitsGetsPrompt | handlers/pace_calculator.py:294-300 | A message without digits always gets the prompt. |
| PaceHandler.NonZeroSolvesFully | handlers/pace_calculator.py:297-302 | Two or more non-zero values make `compute` succeed with a result of five lines, or three when only pace and speed were given. |
| PaceHandler.NonZeroGetsFullResult | handlers/pace_calculator.py:297-302 | Two or more non-zero values give the result: five lines, or three when only pace and speed were given. |
| Text.IntStrInjective | database/users_store.py:38 | Different user ids have different keys `str(user_id)`. |
| Text.Normalize | database/json_db.py:21-23 | Definition of `_normalize_query` (also `text.lower().strip()` in `parse_input`); its properties are `Text.NormalizeStripped` and `Text.NormalizeNoDigits`. |
| JsonDb.MatchKeywords | database/json_db.py:26-32 | Definition of `_match_keywords`: an empty query matches, otherwise every `\w+` word of the query occurs in the normalised text. Its properties are `JsonDb.ContainedQueryMatches`, `JsonDb.ExerciseHitIsKeywordMatch` and `JsonDb.TermHitIsKeywordMatch`. |
| JsonDb.Searchable | database/json_db.py:78-81 | Definition of the searchable text "name keywords description"; its property is `JsonDb.ExerciseHitIsKeywordMatch`. |
| JsonDb.ExerciseHit | database/json_db.py:82 | Definition of the exercise test; its properties are `JsonDb.ExerciseHitsExactly` and `JsonDb.ExerciseHitIsKeywordMatch`. |
| JsonDb.TermHit | database/json_db.py:121-122 | Definition of the terminology test; its properties are `JsonDb.FirstTermHit` and `JsonDb.TermHitIsKeywordMatch`. |
| JsonDb.TermsOf | database/json_db.py:128 | The list is no longer than the stored one. Its properties are `JsonDb.TermsOfExactly` and `JsonDb.TermsInOrder`. |
| JsonDb.ContainedQueryMatches | database/json_db.py:26-32 | A query contained in an already lowercased text matches that text by keywords. |
| JsonDb.ExerciseHitsExactly | database/json_db.py:76-84 | The result holds exactly the exercises whose name contains the query or whose searchable text matches it. |
| JsonDb.ExerciseHitsInOrder | database/json_db.py:76-84 | The hits sit at strictly increasing positions of the stored list, i.e. in stored order. |
| JsonDb.ExerciseHitIsKeywordMatch | database/json_db.py:78-83 | The `q in name` test is subsumed: an exercise passes iff "name keywords description" matches by keywords. |
| JsonDb.ExerciseHitsAreKeywordHits | database/json_db.py:76-84 | Hence the search result is exactly the keyword matches, in stored order. |
| JsonDb.FirstTermHit | database/json_db.py:119-124 | The entry found is the first that passes the test, and there is none iff no entry passes. |
| JsonDb.TermHitIsKeywordMatch | database/json_db.py:121-123 | Equality and containment are subsumed by the keyword match on the lowercased term. |
| JsonDb.FirstWithIdUnique | database/json_db.py:86-91 | The first item with a given id is unique. |
| JsonDb.FindById | database/json_db.py:86-91 | The early-return scan returns the first item whose id is `id`, and `None` iff there is none. |
| JsonDb.TermsOfExactly | database/json_db.py:126-128 | Every listed term is non-empty, and every entry with a non-empty term is listed. |
| JsonDb.TermsInOrder | database/json_db.py:126-128 | The terms come from strictly increasing positions of the stored list. |
| JsonDb.JsonDB.SearchExercises | database/json_db.py:71-84 | A blank query gives `[]`. Otherwise the loop returns `ExerciseHits` of the normalised query. |
| JsonDb.JsonDB.GetExerciseById | database/json_db.py:86-91 | Returns the first exercise with that id, or `None` iff there is none. |
| JsonDb.JsonDB.GetAllEducation | database/json_db.py:93-95 | Returns the stored list and changes nothing. |
| JsonDb.JsonDB.GetEducationById | database/json_db.py:97-102 | Returns the first material with that id, or `None` iff there is none. |
| JsonDb.JsonDB.GetAllComplexes | database/json_db.py:104-106 | Returns the stored list and changes nothing. |
| JsonDb.JsonDB.GetComplexById | database/json_db.py:108-113 | Returns the first complex with that id, or `None` iff there is none. |
| JsonDb.JsonDB.SearchTerminology | database/json_db.py:115-124 | A blank query gives `None`. Otherwise the loop returns the first entry that passes. |
| JsonDb.JsonDB.GetAllTerms | database/json_db.py:126-128 | Exactly the non-empty terms are listed. |
| UsersStore.Listing | database/users_store.py:54-85 | Definition of `get_all_users`: the rows of the log loop, then those of the map loop. Its properties are `UsersStore.ListingDistinct`, `UsersStore.ListingRows`, `UsersStore.ListingLength`, `UsersStore.ListingCoversCount`, `UsersStore.ListingMatchesCount` and `UsersStore.Registry.GetAllUsers`. |
| UsersStore.FromLogRows | database/users_store.py:61-74 | Each row of the first loop is for a logged user not seen before, and shows the stored details or empty ones. |
| UsersStore.FromLogDistinct | database/users_store.py:59-74 | The first loop lists no user twice. |
| UsersStore.FromLogLength | database/users_store.py:59-74 | The first loop lists one row per distinct logged user not seen before. |
| UsersStore.FromMapRows | database/users_store.py:75-84 | Each row of the second loop is for a stored user absent from the log, with its stored details. |
| UsersStore.FromMapDistinct | database/users_store.py:75-84 | The second loop lists no user twice. |
| UsersStore.FromMapLength | database/users_store.py:75-84 | The second loop lists one row per stored user absent from the log. |
| UsersStore.ListingDistinct | database/users_store.py:54-85 | `get_all_users` lists each user at most once. |
| UsersStore.ListingRows | database/users_store.py:54-85 | Every listed user is in the log or the map. A logged user missing from the map is listed with empty names. |
| UsersStore.ListingLength | database/users_store.py:54-85 | The listing has as many rows as there are distinct users in the log and the map together. |
| UsersStore.ListingCoversCount | database/users_store.py:54-91 | Every counted user is listed: the listing is at least as long as `count_users`. |
| UsersStore.ListingMatchesCount | database/users_store.py:54-91 | When every logged user is also stored, `get_all_users` lists exactly `count_users` rows. |
| UsersStore.StoreKeepsWellFormed | database/users_store.py:40-49 | Storing a user under its id keeps the key order exact and duplicate-free. |
| UsersStore.Registry.AddUser | database/users_store.py:32-51 | Returns true iff the id was not stored. The log grows by exactly one entry for a new user. The user's entry holds the given fields with "" defaults, all other entries are unchanged, and the count grows only for a new user. If every logged user was stored before, that stays so. |
| UsersStore.Registry.GetAllUsers | database/users_store.py:54-85 | The two loops return exactly the listing: logged users in log order without repeats, then stored users the log never mentions. |
| UsersStore.Registry.CountUsers | database/users_store.py:88-91 | The number of stored users. |
| UsersStore.Registry.constructor | database/users_store.py:18-24 | A missing or unreadable file starts with no users and an empty log. |
| UsersStore.Registry.Loaded | database/users_store.py:20-22 | A well-formed loaded file is held as it was read. |

## Findings

| source | as written | input that shows it | evidently intended | confidence | as-written member | corrected member |
|---|---|---|---|---|---|---|
| handlers/pace_calculator.py:250-251 | The "whole kilometres" branch tests `km == round(km, 3)`, which holds for any whole number of metres, and then prints `km` with no decimals. | `format_distance(5.5)` prints "6 км". 42.195 prints "42 км". | Print "N км" only for a whole number of kilometres. Other distances fall through to "N.NN км (M м)". | not executed | PaceFormat.FormatDistanceAsWritten (PaceFormat.FormatDistanceAsWrittenRoundsAway, PaceFormat.AsWrittenNeverKmAndMetresFromOneKm) | PaceFormat.FormatDistance (PaceFormat.DistanceShownWithinRounding); `PaceFormat.CorrectedResultLines` uses this one, while the reply keeps the code as written |

## Left out

- `_parse_pace`, `_parse_distance`, `_parse_time`, `_parse_speed` (handlers/pace_calculator.py:16-81): nothing calls them, and `parse_input` does its own matching.
- **Telegram plumbing:**
  - `show_pace_prompt` and the `PACER_HELP` text are sending only.
  - `Update` and `context` are reduced to the message text, which `HandlePaceMessage` takes as an `Option<string>`.
- **Floating point:**
  - Quantities are exact reals, so doubles' representation error is not modelled.
  - `:.2f` of a binary double can round a decimal tie the other way (2.675 → "2.67"); the model rounds the exact value.
- **The `re` engine beyond the patterns used:**
  - `\w` and `\b` are modelled for ASCII, Latin-1 (superscript digits and vulgar fractions included), Latin Extended-A/B and the Cyrillic letters U+0400–U+0481 and U+048A–U+052F. Characters of other scripts count as non-word characters.
  - `str.lower` lowers only A–Z, the Latin-1 capitals À–Þ except ×, and the Cyrillic capitals U+0400–U+042F. Other capitals, such as 'Ā' (U+0100) or 'Ґ' (U+0490), stay as they are, where Python would lower them.
- **Digits:** `\d` and `float()` accept every Unicode decimal digit (fullwidth '５', Arabic-Indic '٥'); `Text.IsDigit` and the matchers built on it accept only the ASCII digits 0–9, so a text written with other digits reads no numbers in the model.
- **File I/O and the clock:**
  - `_load_json` and `_reload` (database/json_db.py:35-69), and `_load` and `_save` (database/users_store.py:15-29), are not modelled: the constructors take the loaded data.
  - `datetime.utcnow()` becomes the `now` parameter of `AddUser`.
  - Concurrent writers of users.json are not modelled.
- **JSON records lacking fields:**
  - An exercise, material or complex carries its id as text (`str(item.get("id"))`); a missing id would be the text "None".
  - Missing names, descriptions and terms are "".
  - Exercise `keywords` are a list; Python would fail on a non-list.
  - Registry entries always carry `user_id` and `at`, so the `u.get("user_id", int(uid))` fallback is not modelled.
- UsersStore.Registry.Loaded: a loaded registry must be well formed. Its order lists each key once, and each key is the id stored under it. That is the shape `add_user` writes; arbitrary hand-edited files are not covered.
- UsersStore.Registry.GetAllUsers: the second loop also checks that a key of `order` is in the map. Under `Valid()` this always holds; Python iterates the dictionary's own items.
- JsonDb.JsonDB.GetAllTerms: its contract states which terms are listed. `JsonDb.TermsInOrder` states their order separately.
- database/base.py is not part of this model. The abstract method `get_all_terminology` that it declares has no implementation in `JsonDB`. Python would refuse to construct that class. The model's constructor does not capture this.

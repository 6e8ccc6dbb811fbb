# Gym-app browser scripts: the data logic of the dashboard and the profile

The Gym-app front end has two browser scripts. `static/dashboard.js` drives
the exercise dashboard. It loads the user's exercises into a cache and a
grid, opens one exercise to list its performances, deletes a performance,
and creates an exercise. `static/profile.js` fills the profile modal. It
shows the user's header, the fifteen heaviest exercises, the lifetime
training volume, and the fifty newest performances, gathered from one
request per exercise. It also remembers which profile card was clicked.

This project models the data logic of both scripts in Dafny and proves what
it promises. The modules are:

- `JsValues` covers the JSON values the scripts receive and the JavaScript
  operators they apply: truthiness, `||`, `??`, property access, `Number(v)`,
  `String(v)` and `trim()`. It also states what a field access does on a
  `null` entry: it throws.
- `Decimal` holds integer text, its reader, and `padStart`.
- `Html` holds `esc` and the entity decoding that inverts it.
- `DateFormat` holds `formatDateFR` and a reader for `DD/MM/YYYY`.
- `Fetching` covers `fetchJson`, the primary-then-fallback read, and the
  DELETE-then-POST removal. All three work over abstract replies.
- `Dashboard` holds:
  - the exercise and performance-row normalisers;
  - the create-form check and the cache lookup;
  - a `Page` class for the state the script mutates (`EXERCISES_CACHE`,
    `currentExercise`, the grid and the modal's list).
- `Profile` holds:
  - `perfVolume` and the total-volume loop;
  - the top-15 selection and the in-place date sort of the history;
  - the loop that fills the name table, and the merge of the per-exercise
    lists;
  - a `Selection` class for the `selected` object and the view button;
  - `loadProfile`, which puts these together.

Each reply from the backend is an input. `Reply` is either no response or a
status with a JSON body (or a body that is not JSON). Two browser services
are parameters: how `String(x)` writes a finite number (`NumberFormat`), and
the calendar date `new Date(text)` yields (`Value -> Option<CalendarDate>`).

## Model

| member | source | states |
|---|---|---|
| JsValues.FirstTruthyIndex | static/dashboard.js:355-358 | the index is that of the first truthy alias; every alias before it is falsy; it equals the length when none is truthy |
| JsValues.FirstPresentIndex | static/dashboard.js:359-361 | the index is that of the first alias that is neither `null` nor `undefined`; every alias before it is nullish |
| JsValues.OrChainIsFirstTruthy | static/dashboard.js:355-358 | a left-to-right `a \|\| b \|\| … \|\| d` chain of any length yields the first truthy alias, else the default |
| JsValues.CoalesceChainIsFirstPresent | static/dashboard.js:359-361 | a left-to-right `a ?? b ?? … ?? d` chain yields the first alias that is not `null`/`undefined`, else the default |
| JsValues.OrChain3 | static/dashboard.js:355 | the chain as JavaScript groups it, `((a \|\| b) \|\| c) \|\| d`, picks the first truthy of a, b, c, else d |
| JsValues.CoalesceChain3 | static/dashboard.js:359 | `((a ?? b) ?? c) ?? d` picks the first of a, b, c that is not nullish, else d |
| JsValues.FirstTruthyTruthy | static/dashboard.js:357 | an `\|\|` chain's value is truthy exactly when the default or some alias is truthy; so `zone` is never empty |
| JsValues.AsRecord | static/profile.js:95 | reading a field throws exactly on `null`/`undefined`; an object yields its own fields |
| JsValues.AsRecords | static/dashboard.js:354 | mapping a field read over an array fails exactly when some element is nullish; otherwise each element is read in place, in order |
| JsValues.TrimStart | static/dashboard.js:241 | the result is a suffix of the input; only white space was removed; the result does not start with white space |
| JsValues.TrimEnd | static/dashboard.js:241 | the result is a prefix of the input; only white space was removed; the result does not end with white space |
| JsValues.Trim | static/dashboard.js:241 | `trim()` returns the contiguous middle of the text, with only white space removed at both ends and none left at either end |
| JsValues.DotIndex | static/dashboard.js:359 | the position of the first `.` in the number text, or the length when there is none |
| JsValues.StringToNumber | static/dashboard.js:359 | `Number(text)` is always a number or `NaN`, and depends only on the trimmed text |
| JsValues.ToNumber | static/dashboard.js:359-361 | `Number(v)` is a number or `NaN`; it leaves a number unchanged; `Number(null)` is 0 and `Number(undefined)` is `NaN`; `true` is 1 and `false` 0; a string converts by `Number(text)` |
| JsValues.TrimStartAppend | static/dashboard.js:359 | trimming the front of a joined text stops in the first part unless that part is all white space |
| JsValues.LeadingSpaceIgnored | static/dashboard.js:359-361 | `Number` ignores white space in front of the number |
| JsValues.TrailingSpaceIgnored | static/dashboard.js:359-361 | `Number` ignores white space after the number |
| JsValues.SignedDecimal | static/dashboard.js:359-361 | decimal text reads as its value, and with a leading `-` as the negated value |
| JsValues.WholeDecimal | static/dashboard.js:359-361 | digits without a point read as the whole number they spell |
| JsValues.NumberOfNatText | static/dashboard.js:359-361 | the text of a whole number reads back as that number, e.g. `Number("12")` is 12 |
| JsValues.NumberOrZero | static/profile.js:28-29 | `Number(v) \|\| 0` is the number `v` converts to, or 0 when that is `NaN` |
| JsValues.FindIndex | static/dashboard.js:405 | `find`'s stopping point: the first element whose key matches; no earlier element matches; the length when none does |
| JsValues.RemoveFirst | static/dashboard.js:186-187 | exactly the first matching element is removed; the others keep their order; nothing changes when none matches |
| Decimal.NatToString | static/dashboard.js:31-33 | the text of a number is non-empty, all digits, and has no leading zero unless the number is 0 |
| Decimal.IntToString | static/dashboard.js:33 | the year's text is non-empty, and all digits exactly when the year is not negative |
| Decimal.ParseIntToString | static/dashboard.js:33 | the year's text, sign included, reads back as the year |
| Decimal.ParseNatToString | static/dashboard.js:31-33 | reading back the digits written for n gives n |
| Decimal.ParseNatLeadingZero | static/dashboard.js:31-32 | a padding zero does not change the value read |
| Decimal.NatToStringLength | static/dashboard.js:33 | a number between 10^k and 10^(k+1) is written with k+1 digits |
| Decimal.PadStart | static/dashboard.js:31-32 | `padStart(w, c)`: the result has length max(\|s\|, w), ends with s, and is filled with c in front |
| Html.Esc | static/dashboard.js:21-25 | `esc(null/undefined)` is ""; the output holds no raw `< > " '`, and every `&` in it opens an entity; decoding the output gives back `String(v)` exactly |
| Html.EscapeAppend | static/dashboard.js:22 | the per-character replacement distributes over concatenation |
| Html.UnescapeStep | static/dashboard.js:22-23 | decoding one replaced character gives that character, and decoding resumes right after it |
| Html.UnescapeEscape | static/dashboard.js:21-25 | decoding escaped text gives back the original: no character is lost, altered or moved |
| Html.NoRawMarkupAppend | static/dashboard.js:22 | text free of raw markup stays free of it when joined to other such text |
| Html.EscapeHasNoRawMarkup | static/dashboard.js:21-25 | escaped text contains no raw `< > " '`, and every `&` in it starts one of the five entities |
| Html.EscapeIdentity | static/dashboard.js:21-25 | `esc` leaves text unchanged exactly when the text holds none of `& < > " '` |
| Html.EscapeLength | static/dashboard.js:21-25 | escaping never shortens text |
| DateFormat.FormatDateFR | static/dashboard.js:27-35 | a falsy input gives ""; unparseable text gives `String(iso)`; a parsed date reads back as the same day, month and year, negative years included; a four-digit year gives exactly ten characters |
| DateFormat.TwoDigitsRoundTrip | static/dashboard.js:31-32 | a day or month from 1 to 99 is written as exactly two digits that read back as itself |
| DateFormat.ReadJoined | static/dashboard.js:34 | two-digit day and month fields and a year field, joined with `/`, read back field by field |
| DateFormat.ReadFields | static/dashboard.js:31-34 | fields that read as a date's day, 1-based month and year join into text that reads back as that date |
| DateFormat.ReadFormatParts | static/dashboard.js:31-34 | `DD/MM/YYYY` reads back as the date it was written from, with the month 0-based again and the year's sign kept |
| DateFormat.FormatPartsLength | static/dashboard.js:31-34 | a four-digit year makes the text exactly `DD/MM/YYYY`, ten characters |
| Fetching.FetchJson | static/dashboard.js:37-41 | the result is the body exactly when the status is 2xx and the body is JSON; a non-2xx status fails with that status; no response fails as a network error |
| Fetching.FetchJsonWithFallback | static/dashboard.js:43-49 | the primary is tried first; the fallback is tried once, and only when the primary fails; the primary's result is kept on success; otherwise the fallback's result, including its failure, is returned |
| Fetching.DeleteWithFallback | static/dashboard.js:167-184 | DELETE is always sent first; POST with the id and user id is sent exactly when DELETE failed; the deletion counts exactly when one of them succeeded |
| Dashboard.NormalizeExercise | static/dashboard.js:354-362 | id, name and video take the first truthy alias, else ""; zone takes it, else "haut"; the three counters take `Number` of the first present alias, else 0 |
| Dashboard.NormalizedExerciseShape | static/dashboard.js:354-362 | every cached exercise has a truthy id or "", a non-empty zone, and a counter that is a number or `NaN`; an explicit 0 is kept; an absent `max_weight` reads as 0 |
| Dashboard.NormalizePerfRow | static/dashboard.js:210-215 | the id is the first truthy of perf_id, performance_id, id, else ""; weight, reps and rpe take the first present alias, else 0, 0 and "-"; the date formats the first truthy of date and created_at, else timestamp |
| Dashboard.RowKeyIsId | static/dashboard.js:218 | the `data-perf-id` attribute, once parsed, holds `String(perfId)` |
| Dashboard.RemoveRow | static/dashboard.js:186-187 | the first row whose attribute equals the id goes; the other rows stay, in order; no row matching means no change |
| Dashboard.CheckNewExercise | static/dashboard.js:240-258 | a missing or blank name, or no zone, is refused first; then a missing user id; only then is a request built, with the trimmed name, the zone, the user id and the trimmed video or "" |
| Dashboard.FindExercise | static/dashboard.js:405 | an exercise is found exactly when some cached id, as text, equals `String(id)`; it is the first such entry |
| Dashboard.LoadExerciseList | static/dashboard.js:344-362 | a failed request or a `null` entry makes the load fail; an empty or non-array answer gives an empty cache; otherwise one normalised exercise per entry, in order |
| Dashboard.LoadedList | static/dashboard.js:202-234 | both endpoints failing, or a `null` row, shows the error; an empty or non-array answer shows the empty notice; otherwise one row per entry, in order |
| Dashboard.Page.constructor | static/dashboard.js:110-111 | the cache starts empty and no exercise is open |
| Dashboard.Page.LoadExercises | static/dashboard.js:336-392 | without a user id nothing changes; on failure the error shows and the old cache stays; otherwise the cache is replaced, and the grid shows it or the empty notice |
| Dashboard.Page.LoadPerformances | static/dashboard.js:194-235 | without a user id the list is left alone; otherwise it becomes what the answer gives |
| Dashboard.Page.OpenExercise | static/dashboard.js:113-128 | the exercise becomes the open one, the list shows "loading", and then it shows what the load gives |
| Dashboard.Page.CloseExercise | static/dashboard.js:130-136 | no exercise is open afterwards |
| Dashboard.Page.OnGridAction | static/dashboard.js:396-420 | an unknown id, or any action but "open", changes nothing; "open" opens the first cached exercise with that id and loads its list |
| Dashboard.Page.DeletePerformance | static/dashboard.js:158-192 | no id or no confirmation sends nothing; otherwise the requests are the DELETE/POST fallback; after a failure the list is unchanged; after success the matching row is removed, and an emptied list shows the notice |
| Dashboard.Page.CreateExercise | static/dashboard.js:240-280 | the form check decides; a refused form or a failed POST leaves cache and grid alone; a successful POST reloads the exercises |
| Profile.NumberField | static/profile.js:28-29 | a missing field, or one that does not convert, reads as 0; any other field reads as its numeric value |
| Profile.PerfVolume | static/profile.js:27-31 | the volume is 0 when weight or reps is missing or not a number; for numeric fields it is weight × reps |
| Profile.SumByAppend | static/profile.js:171-172 | the sum over a concatenation is the sum of the sums |
| Profile.SumByRemove | static/profile.js:171-172 | taking an element out of the list takes its term out of the sum |
| Profile.SumByPermutation | static/profile.js:171-172 | a sum does not depend on the order of its terms |
| Profile.TotalVolume | static/profile.js:171-172 | the loop's total is the volume summed over every merged performance |
| Profile.SumVolumeAppend | static/profile.js:170-172 | the total of two lists joined is the sum of their totals |
| Profile.SumVolumePermutation | static/profile.js:170-176 | reordering the performances, as the date sort does, does not change the total |
| Profile.InsertDesc | static/profile.js:123 | inserting adds exactly the one record |
| Profile.InsertDescSorted | static/profile.js:123 | inserting into a list sorted heaviest first keeps it sorted |
| Profile.SortDesc | static/profile.js:121-123 | the sort is a permutation of its input |
| Profile.SortDescSorted | static/profile.js:123 | the sort's output is ordered heaviest first |
| Profile.SortByWeight | static/profile.js:121-123 | sorting the copy by `max_weight` keeps the same exercises |
| Profile.SortByWeightSorted | static/profile.js:123 | the copy comes out ordered by `Number(max_weight \|\| 0)`, heaviest first |
| Profile.SuffixNoneHeavier | static/profile.js:123-124 | in a sorted list, nothing after the cut weighs more than anything before it |
| Profile.SortedPrefix | static/profile.js:121-124 | the first n of a sorted permutation are sorted, drawn from the input, and no lighter than anything left out |
| Profile.TopRecords | static/profile.js:121-124 | at most 15 exercises: all of them when fewer; heaviest first; a prefix of the sorted copy and a sub-multiset of the input; nothing left out is heavier than anything kept |
| Profile.LexLessIrreflexive | static/profile.js:179 | no date text sorts before itself |
| Profile.LexLessAsymmetric | static/profile.js:179 | two date texts never each sort before the other |
| Profile.LexNotLessTransitive | static/profile.js:179 | "not before" is transitive, so newest-first is a consistent order |
| Profile.StartInserting | static/profile.js:176 | a sorted prefix is where inserting the next entry begins |
| Profile.SwapStep | static/profile.js:176 | moving the entry past a strictly older neighbour keeps the other pairs in order |
| Profile.FinishInserting | static/profile.js:176 | once the entry is no newer than its left neighbour, the prefix through it is sorted |
| Profile.Swap | static/profile.js:176 | two entries of the array trade places; nothing else changes |
| Profile.SinkEntry | static/profile.js:176 | one insertion pass leaves one more entry sorted, with the same entries |
| Profile.SortHistory | static/profile.js:176-180 | in place, the performances end newest first by `String(date \|\| created_at \|\| "")` and are the same performances |
| Profile.FirstFifty | static/profile.js:187 | at most 50 are shown, the first ones of the sorted list |
| Profile.ExerciseName | static/profile.js:144 | an exercise's name is always truthy ("Exercice" at worst) |
| Profile.BuildNameMap | static/profile.js:141-146 | the loop fills the table exactly as the fold over the exercises does |
| Profile.NameMapKeys | static/profile.js:141-146 | the table has a key exactly when some exercise has a truthy id whose text is that key |
| Profile.NameMapLastName | static/profile.js:141-146 | when exercise i is the last one keyed by an id, the table holds that id with exercise i's name |
| Profile.NameMapEntries | static/profile.js:141-146 | a key is present exactly when some exercise has a truthy id with that text; its name is that of the last such exercise |
| Profile.NameMapValuesTruthy | static/profile.js:144-145 | every name in the table is truthy |
| Profile.LookupName | static/profile.js:189 | a miss gives "Exercice"; a hit on a truthy name (every stored name is, by `NameMapValuesTruthy`) gives that name |
| Profile.ExerciseIds | static/profile.js:150 | every id kept is truthy and is the `exercise_id` of some exercise; every truthy `exercise_id` is kept |
| Profile.ExerciseIdsSingle | static/profile.js:150 | one exercise contributes its id exactly when the id is truthy |
| Profile.ExerciseIdsAppend | static/profile.js:150 | the ids keep the order of the exercises: two runs of exercises give their ids end to end |
| Profile.Tag | static/profile.js:156 | the copy carries the given `exercise_id`, overriding its own; every other field of an object is copied |
| Profile.PerfsOf | static/profile.js:153-159 | an array answer contributes each of its entries, in order, tagged with the exercise's id; a failed or non-array answer contributes nothing |
| Profile.ConcatMapAppend | static/profile.js:162-163 | flattening distributes over concatenation |
| Profile.ConcatMapMember | static/profile.js:162-163 | each flattened element comes from some exercise's list |
| Profile.ConcatMapSkip | static/profile.js:162-163 | dropping an element that contributes nothing changes nothing |
| Profile.MergeAppend | static/profile.js:153-163 | the merge is concatenation in exercise order: the lists of two runs of ids join end to end |
| Profile.MergeSingle | static/profile.js:153-163 | the merge over one id is that exercise's tagged list, so with `MergeAppend` the merge is each id's list in turn |
| Profile.MergeSkipsFailed | static/profile.js:156-159 | a failed or non-array request contributes nothing |
| Profile.MergedAreTagged | static/profile.js:153-163 | every merged performance carries the id of some exercise it was fetched for |
| Profile.MergedHaveNames | static/profile.js:141-163 | every merged performance finds its exercise in the name table, so the history never falls back to "Exercice" for it |
| Profile.Selection.constructor | static/profile.js:42 | nothing is selected at first |
| Profile.Selection.OnClick | static/profile.js:44-53 | each attribute the card carries, when non-empty, replaces the stored value; an absent or empty one keeps the old value; a click off any card changes nothing |
| Profile.Selection.ViewTarget | static/profile.js:206-223 | the profile opens exactly when the selection or the login overlay has a user id; the selection's id, then the overlay's, is used; the username is resolved likewise |
| Profile.UserStop | static/profile.js:95 | `find` stops at the first entry that is the user or that throws |
| Profile.FindUser | static/profile.js:94-95 | a user is found only as the first match with no `null` before it; none is found exactly when every match comes after a `null` entry |
| Profile.HeaderOf | static/profile.js:84-103 | the name and tier are always truthy and the score is present; without a readable user the placeholders stay; otherwise username, the UI name or "Profil"; tier or "—"; score or "—" |
| Profile.OrderHistory | static/profile.js:176-180 | the history comes out newest first, with the same performances |
| Profile.ShowExercises | static/profile.js:115-199 | the max list is the top-15 rows; the volume is the total over the merge; the history is the first fifty of the sorted merge, named from the table |
| Profile.LoadProfile | static/profile.js:82-203 | the header is always filled; the run stops after the header exactly when an exercise entry is `null`/`undefined`; otherwise the volume, max list and history are as in the functions they are proved against |

## Left out

- The network, the DOM, `innerHTML` markup, modals, focus, keyboard and backdrop listeners, `alert`, `confirm` and `console`: I/O and UI plumbing. Each reply and each user answer is an input. Page elements are assumed present.
- `Promise.all` in `loadProfile`: concurrency. The merge is a sequential map over the replies already obtained, in exercise order.
- `fetchPerfs`: it is a function of the exercise id, so a duplicated id gets the same reply both times. The script sends two requests.
- `formatKgCompact`: floating-point `toFixed` and `toLocaleString("fr-FR")`. The model yields the total volume as a number, not its text.
- `new Date(text)`: browser date parsing. Its outcome, a calendar date or none, is an input of `FormatDateFR`.
- `String(x)` for a finite number: shortest round-trip printing of doubles. It is the `NumberFormat` parameter.
- Numbers are reals: floating-point rounding in `weight × reps` and in the sum is not modelled.
- `JsValues.StringToNumber`: reads blank text, and signed decimals with an optional fraction. Exponents, hexadecimal, binary, octal and `Infinity` read as `NaN`.
- `Profile.PerfVolume`: its product clause is stated for fields that are JSON numbers. Numeric strings are covered only through `Profile.NumberField`'s contract, to keep the proof small.
- `Profile.MaxWeightKey`: a `max_weight` that converts to `NaN` is ranked as 0. The script's comparator then returns `NaN`, which sort treats as "equal".
- `localeCompare`: replaced by code-point order (`Profile.LexLess` compares Dafny characters, which are Unicode scalar values). Locale collation is not modelled. For characters above U+FFFF this also differs from UTF-16 code-unit order: U+FFFF sorts before U+1F600 here, but after it in UTF-16.
- `Dashboard.Page.OpenExercise` and `Dashboard.Page.DeletePerformance`: each handler runs to completion before the next event. The script does not await `loadPerformancesForExercise(ex)` when it opens an exercise, and the delete handler edits whichever list is shown once its requests return. So a late answer for an earlier exercise can overwrite the list of the one now open, or a deletion can apply to a list reloaded in between. Async interleaving is not modelled.
- `Profile.SortHistory` and `Profile.TopRecords`: stability is not proved. `TopRecords` is specified by the stable insertion sort it uses; `SortHistory` keeps equal keys in input order but does not state it.
- `Profile.Tag`: spreading a non-object copies no field the script reads afterwards, so only `exercise_id` is kept.
- The create-modal reset and the "edit"/"delete" grid actions only touch the UI or show a message. So does the "add performance" button.
- `loadLeastExercise`, the page navigation, and `openProfile`/`closeProfile`: UI only.
- `app.py`, `static/app.js` and `main.py` are not part of this model.
- Weekly or monthly windows, session goals, and tier or score computation: there is no such code. Tier and score are only read from the backend.

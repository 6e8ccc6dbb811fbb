/** The data logic of static/dashboard.js: the exercise and performance-row
    normalisers, the create-exercise form check, the lookup in the exercise
    cache, and the page state that the loaders and the delete handler update
    (the exercise cache, the open exercise, the exercise grid and the list of
    performances in the open-exercise modal). */
module Dashboard {
  import opened JsValues
  import opened DateFormat
  import opened Fetching
  import Html

  /** One entry of `EXERCISES_CACHE`. The three counters hold what `Number(…)`
      returned: a number or `NaN`. */
  datatype Exercise = Exercise(
    exerciseId: Value,
    name: Value,
    zone: Value,
    videoUrl: Value,
    sessions: Value,
    maxWeight: Value,
    trainingWeight: Value)

  /** The `raw.map(e => ({…}))` callback of `loadExercises`. The identity, name
      and video fields take the first truthy alias (`||`), the counters the
      first alias that is not `null`/`undefined` (`??`), so an explicit 0 is
      kept rather than skipped. */
  function NormalizeExercise(e: Record): (x: Exercise)
    ensures x.exerciseId == FirstTruthy([Get(e, "exercise_id"), Get(e, "id"), Get(e, "exerciseId")], Str(""))
    ensures x.name == FirstTruthy([Get(e, "name"), Get(e, "exercise")], Str(""))
    ensures x.zone == FirstTruthy([Get(e, "zone")], Str("haut"))
    ensures x.videoUrl == FirstTruthy([Get(e, "video_url"), Get(e, "video"), Get(e, "videoUrl")], Str(""))
    ensures x.sessions == ToNumber(FirstPresent([Get(e, "sessions"), Get(e, "nb"), Get(e, "count")], Num(0.0)))
    ensures x.maxWeight == ToNumber(FirstPresent([Get(e, "max_weight"), Get(e, "max")], Num(0.0)))
    ensures x.trainingWeight == ToNumber(FirstPresent([Get(e, "training_weight"), Get(e, "training")], Num(0.0)))
  {
    var id := Or(Or(Or(Get(e, "exercise_id"), Get(e, "id")), Get(e, "exerciseId")), Str(""));
    var name := Or(Or(Get(e, "name"), Get(e, "exercise")), Str(""));
    var zone := Or(Get(e, "zone"), Str("haut"));
    var video := Or(Or(Or(Get(e, "video_url"), Get(e, "video")), Get(e, "videoUrl")), Str(""));
    var sessions := Coalesce(Coalesce(Coalesce(Get(e, "sessions"), Get(e, "nb")), Get(e, "count")), Num(0.0));
    var maxWeight := Coalesce(Coalesce(Get(e, "max_weight"), Get(e, "max")), Num(0.0));
    var training := Coalesce(Coalesce(Get(e, "training_weight"), Get(e, "training")), Num(0.0));
    assert id == FirstTruthy([Get(e, "exercise_id"), Get(e, "id"), Get(e, "exerciseId")], Str("")) by {
      OrChain3(Get(e, "exercise_id"), Get(e, "id"), Get(e, "exerciseId"), Str(""));
    }
    assert name == FirstTruthy([Get(e, "name"), Get(e, "exercise")], Str("")) by {
      OrChainIsFirstTruthy([Get(e, "name"), Get(e, "exercise")], Str(""));
    }
    assert zone == FirstTruthy([Get(e, "zone")], Str("haut")) by {
      OrChainIsFirstTruthy([Get(e, "zone")], Str("haut"));
    }
    assert video == FirstTruthy([Get(e, "video_url"), Get(e, "video"), Get(e, "videoUrl")], Str("")) by {
      OrChain3(Get(e, "video_url"), Get(e, "video"), Get(e, "videoUrl"), Str(""));
    }
    assert sessions == FirstPresent([Get(e, "sessions"), Get(e, "nb"), Get(e, "count")], Num(0.0)) by {
      CoalesceChain3(Get(e, "sessions"), Get(e, "nb"), Get(e, "count"), Num(0.0));
    }
    assert maxWeight == FirstPresent([Get(e, "max_weight"), Get(e, "max")], Num(0.0)) by {
      CoalesceChainIsFirstPresent([Get(e, "max_weight"), Get(e, "max")], Num(0.0));
    }
    assert training == FirstPresent([Get(e, "training_weight"), Get(e, "training")], Num(0.0)) by {
      CoalesceChainIsFirstPresent([Get(e, "training_weight"), Get(e, "training")], Num(0.0));
    }
    Exercise(
      exerciseId := id,
      name := name,
      zone := zone,
      videoUrl := video,
      sessions := ToNumber(sessions),
      maxWeight := ToNumber(maxWeight),
      trainingWeight := ToNumber(training))
  }

  /** What every normalised exercise satisfies, whatever the backend sent: the
      identity is a truthy alias or "", the zone is never empty ("haut" by
      default), an explicit 0 counter is kept as 0, and an absent one reads as 0. */
  lemma NormalizedExerciseShape(e: Record)
    ensures var x := NormalizeExercise(e);
      (Truthy(x.exerciseId) || x.exerciseId == Str(""))
      && Truthy(x.zone)
      && (x.sessions.Num? || x.sessions.NaN?)
      && (Get(e, "sessions") == Num(0.0) ==> x.sessions == Num(0.0))
      && (Get(e, "max_weight") == Num(0.0) ==> x.maxWeight == Num(0.0))
      && (Get(e, "training_weight") == Num(0.0) ==> x.trainingWeight == Num(0.0))
      && ("max_weight" !in e && "max" !in e ==> x.maxWeight == Num(0.0))
  {
    FirstTruthyTruthy([Get(e, "exercise_id"), Get(e, "id"), Get(e, "exerciseId")], Str(""));
    FirstTruthyTruthy([Get(e, "zone")], Str("haut"));
  }

  /** One row of the open-exercise modal's list, as `loadPerformancesForExercise`
      derives it from a raw performance (the `date` is already formatted). */
  datatype PerfRow = PerfRow(perfId: Value, weight: Value, reps: Value, rpe: Value, date: string)

  /** The raw date field the row shows: `p.date || p.created_at || p.timestamp`. */
  function RowDateSource(p: Record): Value {
    Or(Or(Get(p, "date"), Get(p, "created_at")), Get(p, "timestamp"))
  }

  /** The body of the `rows.map((p) => …)` callback, up to the markup: `parse`
      stands for `new Date(…)`. */
  function NormalizePerfRow(p: Record, parse: Value -> Option<CalendarDate>, fmt: NumberFormat): (row: PerfRow)
    ensures row.perfId == FirstTruthy([Get(p, "perf_id"), Get(p, "performance_id"), Get(p, "id")], Str(""))
    ensures row.weight == FirstPresent([Get(p, "weight"), Get(p, "kg"), Get(p, "charge")], Num(0.0))
    ensures row.reps == FirstPresent([Get(p, "reps"), Get(p, "repetitions")], Num(0.0))
    ensures row.rpe == FirstPresent([Get(p, "ressenti"), Get(p, "rpe")], Str("-"))
    ensures RowDateSource(p) == FirstTruthy([Get(p, "date"), Get(p, "created_at")], Get(p, "timestamp"))
    ensures row.date == FormatDateFR(RowDateSource(p), parse(RowDateSource(p)), fmt)
  {
    OrChain3(Get(p, "perf_id"), Get(p, "performance_id"), Get(p, "id"), Str(""));
    OrChainIsFirstTruthy([Get(p, "date"), Get(p, "created_at")], Get(p, "timestamp"));
    CoalesceChain3(Get(p, "weight"), Get(p, "kg"), Get(p, "charge"), Num(0.0));
    CoalesceChainIsFirstPresent([Get(p, "reps"), Get(p, "repetitions")], Num(0.0));
    CoalesceChainIsFirstPresent([Get(p, "ressenti"), Get(p, "rpe")], Str("-"));
    var source := RowDateSource(p);
    PerfRow(
      perfId := Or(Or(Or(Get(p, "perf_id"), Get(p, "performance_id")), Get(p, "id")), Str("")),
      weight := Coalesce(Coalesce(Coalesce(Get(p, "weight"), Get(p, "kg")), Get(p, "charge")), Num(0.0)),
      reps := Coalesce(Coalesce(Get(p, "reps"), Get(p, "repetitions")), Num(0.0)),
      rpe := Coalesce(Coalesce(Get(p, "ressenti"), Get(p, "rpe")), Str("-")),
      date := FormatDateFR(source, parse(source), fmt))
  }

  /** The value of a row's `data-perf-id` attribute once the browser has parsed
      the markup `data-perf-id="${esc(perfId)}"`. */
  function RowKey(fmt: NumberFormat): PerfRow -> string {
    (row: PerfRow) => Html.Unescape(Html.Esc(row.perfId, fmt))
  }

  /** Escaping the id into the attribute and parsing it back loses nothing: the
      attribute holds `String(perfId)`, which the delete handler compares. */
  lemma RowKeyIsId(row: PerfRow, fmt: NumberFormat)
    requires !Nullish(row.perfId)
    ensures RowKey(fmt)(row) == JsString(row.perfId, fmt)
  {
  }

  /** Removal of the first row whose `data-perf-id` equals `perfId`
      (`querySelector(…)?.remove()`): that row goes, the others stay in order. */
  function RemoveRow(rows: seq<PerfRow>, perfId: string, fmt: NumberFormat): (r: seq<PerfRow>)
    ensures var k := FindIndex(rows, RowKey(fmt), perfId);
      if k < |rows| then
        |r| == |rows| - 1 && multiset(r) + multiset{rows[k]} == multiset(rows)
        && forall i | 0 <= i < |r| :: r[i] == rows[if i < k then i else i + 1]
      else r == rows
  {
    RemoveFirst(rows, RowKey(fmt), perfId)
  }

  /** The body of the create-exercise request. */
  datatype NewExercise = NewExercise(userId: string, name: string, zone: string, videoUrl: string)

  datatype CreateCheck = NameAndZoneRequired | UserIdMissing | Send(request: NewExercise)

  /** The checks the create button runs before any request (static/dashboard.js:240-258).
      `nameInput` and `videoInput` are the text fields' values (`None` when the
      field is absent), `zoneChecked` the checked radio's value, `userId` the
      `user_id` parameter of the page URL. */
  function CheckNewExercise(nameInput: Option<string>, zoneChecked: Option<string>,
                            videoInput: Option<string>, userId: Option<string>): (c: CreateCheck)
    ensures c == NameAndZoneRequired
      <==> nameInput.None? || Trim(nameInput.value) == "" || zoneChecked.None? || zoneChecked.value == ""
    ensures c == UserIdMissing
      <==> nameInput.Some? && Trim(nameInput.value) != "" && zoneChecked.Some? && zoneChecked.value != ""
           && (userId.None? || userId.value == "")
    ensures c.Send? ==> c.request.name != "" && c.request.zone != "" && c.request.userId != ""
    ensures c.Send? ==> c.request == NewExercise(userId.value, Trim(nameInput.value), zoneChecked.value,
                                                 if videoInput.Some? then Trim(videoInput.value) else "")
  {
    var name := if nameInput.Some? then Some(Trim(nameInput.value)) else None;
    var zone := if zoneChecked.Some? && zoneChecked.value != "" then zoneChecked.value else "";
    var video := if videoInput.Some? then Some(Trim(videoInput.value)) else None;
    if name.None? || name.value == "" || zone == "" then NameAndZoneRequired
    else if userId.None? || userId.value == "" then UserIdMissing
    else Send(NewExercise(userId.value, name.value, zone, if video.Some? && video.value != "" then video.value else ""))
  }

  /** `String(x.exercise_id)`, the text the cache lookup compares. */
  function ExerciseKey(fmt: NumberFormat): Exercise -> string {
    (x: Exercise) => JsString(x.exerciseId, fmt)
  }

  /** `String(id)` for the `data-exercise-id` attribute, which is `null` when absent. */
  function AttributeText(attr: Option<string>): string {
    if attr.None? then "null" else attr.value
  }

  /** `EXERCISES_CACHE.find((x) => String(x.exercise_id) === String(id))`. */
  function FindExercise(cache: seq<Exercise>, id: Option<string>, fmt: NumberFormat): (r: Option<Exercise>)
    ensures r.Some? <==> exists i | 0 <= i < |cache| :: ExerciseKey(fmt)(cache[i]) == AttributeText(id)
    ensures r.Some? ==> exists i | 0 <= i < |cache| :: r.value == cache[i] && ExerciseKey(fmt)(cache[i]) == AttributeText(id)
                          && forall j | 0 <= j < i :: ExerciseKey(fmt)(cache[j]) != AttributeText(id)
  {
    var k := FindIndex(cache, ExerciseKey(fmt), AttributeText(id));
    if k < |cache| then Some(cache[k]) else None
  }

  /** What the open-exercise modal's list shows. */
  datatype ListView =
    | ListUntouched          // as the page markup left it
    | ListLoading            // "Chargement…"
    | PerfList(rows: seq<PerfRow>)
    | NoPerformances         // "Aucune performance pour le moment."
    | ListError              // "Erreur de chargement."

  /** What the exercise grid shows. */
  datatype GridView =
    | GridUntouched
    | GridLoading            // "Chargement..."
    | Cards(exercises: seq<Exercise>)
    | NoExercises            // "Aucun exercice enregistré."
    | GridError              // "Erreur de chargement."

  /** What a completed `loadExercises()` leaves: the request failed or an
      entry is `null`/`undefined` (the `map` throws), or the new cache. */
  datatype ExerciseLoad = LoadFailed | Loaded(exercises: seq<Exercise>)

  /** The outcome of `loadExercises()` for the answer `reply`: a failure when
      the request failed or an entry cannot be read; an empty cache for an
      empty or non-array answer; otherwise one normalised exercise per entry,
      in order. */
  function LoadExerciseList(reply: Reply): (r: ExerciseLoad)
    ensures var raw := FetchJson(reply);
      && (r.LoadFailed? <==> raw.Fail? || (raw.value.Arr? && exists i | 0 <= i < |raw.value.items| :: Nullish(raw.value.items[i])))
      && (r == Loaded([]) <==> raw.Ok? && (!raw.value.Arr? || raw.value.items == []))
      && (r.Loaded? && r.exercises != [] ==>
            && raw.Ok? && raw.value.Arr? && |r.exercises| == |raw.value.items|
            && (forall i | 0 <= i < |raw.value.items| :: !Nullish(raw.value.items[i]))
            && forall i | 0 <= i < |r.exercises| :: r.exercises[i] == NormalizeExercise(AsRecord(raw.value.items[i]).value))
  {
    match FetchJson(reply)
    case Fail(_) => LoadFailed
    case Ok(raw) =>
      if !raw.Arr? || raw.items == [] then Loaded([])
      else match AsRecords(raw.items)
        case None => LoadFailed
        case Some(rs) => Loaded(seq(|rs|, i requires 0 <= i < |rs| => NormalizeExercise(rs[i])))
  }

  /** What the modal's list shows once `loadPerformancesForExercise` has its
      answer: the error notice when both endpoints failed or an entry cannot
      be read, the empty notice for an empty or non-array answer, and
      otherwise one row per entry, in order. */
  function LoadedList(primary: Reply, fallback: Reply, parse: Value -> Option<CalendarDate>,
                      fmt: NumberFormat): (v: ListView)
    ensures v.ListError? || v.NoPerformances? || v.PerfList?
    ensures var answer := FetchJsonWithFallback(primary, fallback).result;
      && (v.ListError? <==>
            answer.Fail? || (answer.value.Arr? && exists i | 0 <= i < |answer.value.items| :: Nullish(answer.value.items[i])))
      && (v.NoPerformances? <==> answer.Ok? && (!answer.value.Arr? || answer.value.items == []))
      && (v.PerfList? ==>
            && answer.Ok? && answer.value.Arr? && |v.rows| == |answer.value.items| > 0
            && (forall i | 0 <= i < |answer.value.items| :: !Nullish(answer.value.items[i]))
            && forall i | 0 <= i < |v.rows| :: v.rows[i] == NormalizePerfRow(AsRecord(answer.value.items[i]).value, parse, fmt))
  {
    match FetchJsonWithFallback(primary, fallback).result
    case Fail(_) => ListError
    case Ok(rows) =>
      if !rows.Arr? || rows.items == [] then NoPerformances
      else match AsRecords(rows.items)
        case None => ListError
        case Some(rs) => PerfList(seq(|rs|, i requires 0 <= i < |rs| => NormalizePerfRow(rs[i], parse, fmt)))
  }

  /** The state the dashboard script keeps while the page is open. */
  class Page {
    /** The `user_id` parameter of the page URL (`null` when absent). */
    const userId: Option<string>
    /** `EXERCISES_CACHE` */
    var cache: seq<Exercise>
    /** `currentExercise` */
    var current: Option<Exercise>
    var list: ListView
    var grid: GridView

    /** A list always has a row (an empty one is shown as the notice), and the
        grid shows exactly the cached exercises. */
    ghost predicate Valid()
      reads this
    {
      (list.PerfList? ==> |list.rows| > 0)
      && (grid.Cards? ==> grid.exercises == cache && |cache| > 0)
    }

    predicate HasUserId() {
      userId.Some? && userId.value != ""
    }

    constructor (urlUserId: Option<string>)
      ensures Valid()
      ensures userId == urlUserId && cache == [] && current.None?
      ensures list == ListUntouched && grid == GridUntouched
    {
      userId := urlUserId;
      cache := [];
      current := None;
      list := ListUntouched;
      grid := GridUntouched;
    }

    /** `loadExercises()` with `reply` the answer to `GET /api/exercises`: a
        failure shows the error and keeps the old cache, a success replaces
        the cache and shows it (or the empty notice). */
    method LoadExercises(reply: Reply)
      requires Valid()
      modifies this`cache, this`grid
      ensures Valid()
      ensures !HasUserId() ==> cache == old(cache) && grid == old(grid)
      ensures HasUserId() ==>
        match LoadExerciseList(reply)
        case LoadFailed => cache == old(cache) && grid == GridError
        case Loaded(xs) => cache == xs && grid == (if xs == [] then NoExercises else Cards(xs))
    {
      if !HasUserId() {
        return;
      }
      grid := GridLoading;
      match LoadExerciseList(reply)
      case LoadFailed =>
        grid := GridError;
      case Loaded(xs) =>
        cache := xs;
        grid := if xs == [] then NoExercises else Cards(xs);
    }

    /** `loadPerformancesForExercise(ex)`, with the replies of the primary and
        the fallback listing endpoints. Without a user id nothing happens. */
    method LoadPerformances(primary: Reply, fallback: Reply,
                            parse: Value -> Option<CalendarDate>, fmt: NumberFormat)
      requires Valid()
      modifies this`list
      ensures Valid()
      ensures !HasUserId() ==> list == old(list)
      ensures HasUserId() ==> list == LoadedList(primary, fallback, parse, fmt)
    {
      if !HasUserId() {
        return;
      }
      list := LoadedList(primary, fallback, parse, fmt);
    }

    /** `openExerciseModal(ex)`: remember the exercise, show the loading notice, load. */
    method OpenExercise(ex: Exercise, primary: Reply, fallback: Reply,
                        parse: Value -> Option<CalendarDate>, fmt: NumberFormat)
      requires Valid()
      modifies this`current, this`list
      ensures Valid()
      ensures current == Some(ex)
      ensures !HasUserId() ==> list == ListLoading
      ensures HasUserId() ==> list == LoadedList(primary, fallback, parse, fmt)
    {
      current := Some(ex);
      list := ListLoading;
      LoadPerformances(primary, fallback, parse, fmt);
    }

    /** `closeExerciseModal()`. */
    method CloseExercise()
      requires Valid()
      modifies this`current
      ensures Valid() && current.None?
    {
      current := None;
    }

    /** The grid's click handler: look the exercise up in the cache and, for
        the "open" action, open it; "edit" and "delete" only show a message. */
    method OnGridAction(action: Option<string>, id: Option<string>, primary: Reply, fallback: Reply,
                        parse: Value -> Option<CalendarDate>, fmt: NumberFormat)
      requires Valid()
      modifies this`current, this`list
      ensures Valid()
      ensures FindExercise(cache, id, fmt).None? || action != Some("open") ==>
        current == old(current) && list == old(list)
      ensures FindExercise(cache, id, fmt).Some? && action == Some("open") ==>
        && current == FindExercise(cache, id, fmt)
        && list == if HasUserId() then LoadedList(primary, fallback, parse, fmt) else ListLoading
    {
      var ex := FindExercise(cache, id, fmt);
      if ex.None? {
        return;
      }
      if action == Some("open") {
        OpenExercise(ex.value, primary, fallback, parse, fmt);
      }
    }

    /** The list's delete handler. `perfAttr` is the clicked button's
        `data-del-perf` (`None` when no delete button was hit), `confirmed` the
        answer to `confirm(…)`. Returns the requests sent. */
    method DeletePerformance(perfAttr: Option<string>, confirmed: bool, byId: Reply, byPost: Reply,
                             fmt: NumberFormat) returns (sent: seq<DeleteRequest>)
      requires Valid()
      modifies this`list
      ensures Valid()
      ensures perfAttr.None? || perfAttr.value == "" || !confirmed ==> sent == [] && list == old(list)
      ensures perfAttr.Some? && perfAttr.value != "" && confirmed ==>
        var d := DeleteWithFallback(perfAttr.value, userId, byId, byPost);
        var remaining := RemoveRow(if old(list).PerfList? then old(list).rows else [], perfAttr.value, fmt);
        sent == d.sent
        && (!d.deleted ==> list == old(list))
        && (d.deleted ==> list == if remaining == [] then NoPerformances else PerfList(remaining))
    {
      if perfAttr.None? || perfAttr.value == "" || !confirmed {
        return [];
      }
      var d := DeleteWithFallback(perfAttr.value, userId, byId, byPost);
      sent := d.sent;
      if !d.deleted {
        return;
      }
      var rows := if list.PerfList? then list.rows else [];
      var remaining := RemoveRow(rows, perfAttr.value, fmt);
      list := if remaining == [] then NoPerformances else PerfList(remaining);
    }

    /** The create button's handler: check the form, send the request, and on
        success reload the exercise list (`listReply` answers that reload). */
    method CreateExercise(nameInput: Option<string>, zoneChecked: Option<string>, videoInput: Option<string>,
                          postReply: Reply, listReply: Reply) returns (check: CreateCheck)
      requires Valid()
      modifies this`cache, this`grid
      ensures Valid()
      ensures check == CheckNewExercise(nameInput, zoneChecked, videoInput, userId)
      ensures !check.Send? || FetchJson(postReply).Fail? ==> cache == old(cache) && grid == old(grid)
      ensures check.Send? && FetchJson(postReply).Ok? ==>
        match LoadExerciseList(listReply)
        case LoadFailed => cache == old(cache) && grid == GridError
        case Loaded(xs) => cache == xs && grid == (if xs == [] then NoExercises else Cards(xs))
    {
      check := CheckNewExercise(nameInput, zoneChecked, videoInput, userId);
      if check.Send? && FetchJson(postReply).Ok? {
        LoadExercises(listReply);
      }
    }
  }
}

/** The data logic of static/profile.js: the volume of a set and the lifetime
    total, the fifteen heaviest exercises, the history sorted by date and cut
    to fifty, the exercise-name table, the merge of the per-exercise
    performance lists, the selected profile, and the profile load that puts
    them together. */
module Profile {
  import opened JsValues
  import opened DateFormat
  import opened Fetching

  // ---------------------------------------------------------------------------
  // Volume

  /** `Number(v ?? 0) || 0`: a missing field or one that does not convert to
      a number reads as 0. */
  function NumberField(v: Value): (x: real)
    ensures Nullish(v) || ToNumber(v).NaN? ==> x == 0.0
    ensures !Nullish(v) && ToNumber(v).Num? ==> x == ToNumber(v).x
  {
    NumberOrZero(Coalesce(v, Num(0.0)))
  }

  /** `perfVolume(p)`: weight × reps, each read as 0 when it is missing or
      does not convert to a number. */
  function PerfVolume(p: Record): (v: real)
    ensures Nullish(Get(p, "weight")) || Nullish(Get(p, "reps")) ==> v == 0.0
    ensures ToNumber(Get(p, "weight")).NaN? || ToNumber(Get(p, "reps")).NaN? ==> v == 0.0
    ensures Get(p, "weight").Num? && Get(p, "reps").Num? ==> v == Get(p, "weight").x * Get(p, "reps").x
  {
    NumberField(Get(p, "weight")) * NumberField(Get(p, "reps"))
  }

  /** The sum of `f` over a list, accumulated from the front. */
  function SumBy(s: seq<Record>, f: Record -> real): real {
    if s == [] then 0.0 else SumBy(s[..|s| - 1], f) + f(s[|s| - 1])
  }

  lemma {:induction false} SumByAppend(a: seq<Record>, b: seq<Record>, f: Record -> real)
    ensures SumBy(a + b, f) == SumBy(a, f) + SumBy(b, f)
  {
    if b == [] {
      assert a + b == a;
    } else {
      SumByAppend(a, b[..|b| - 1], f);
      assert (a + b)[..|a + b| - 1] == a + b[..|b| - 1];
    }
  }

  lemma SumBySingle(x: Record, f: Record -> real)
    ensures SumBy([x], f) == f(x)
  {
    assert [x][..0] == [];
  }

  /** Taking an element out takes its term out of the sum. */
  lemma SumByRemove(before: seq<Record>, x: Record, after: seq<Record>, f: Record -> real)
    ensures SumBy(before + [x] + after, f) == SumBy(before + after, f) + f(x)
  {
    SumByAppend(before + [x], after, f);
    SumByAppend(before, [x], f);
    SumBySingle(x, f);
    SumByAppend(before, after, f);
  }

  lemma MultisetRemove(a: seq<Record>, b: seq<Record>, k: nat)
    requires multiset(a) == multiset(b) && a != [] && k < |b| && b[k] == a[|a| - 1]
    ensures multiset(a[..|a| - 1]) == multiset(b[..k] + b[k + 1..])
  {
    var x := a[|a| - 1];
    assert a == a[..|a| - 1] + [x];
    assert b == b[..k] + [x] + b[k + 1..];
    assert multiset(a[..|a| - 1]) == multiset(a) - multiset{x};
    assert multiset(b[..k] + b[k + 1..]) == multiset(b) - multiset{x};
  }

  lemma {:induction false} SumByPermutation(a: seq<Record>, b: seq<Record>, f: Record -> real)
    requires multiset(a) == multiset(b)
    ensures SumBy(a, f) == SumBy(b, f)
    decreases |a|
  {
    if a != [] {
      var x := a[|a| - 1];
      assert x in multiset(b) by {
        assert x in multiset(a);
      }
      var k :| 0 <= k < |b| && b[k] == x;
      MultisetRemove(a, b, k);
      SumByPermutation(a[..|a| - 1], b[..k] + b[k + 1..], f);
      assert b == b[..k] + [x] + b[k + 1..];
      SumByRemove(b[..k], x, b[k + 1..], f);
    } else {
      assert multiset(b) == multiset{};
    }
  }

  /** The volume of a list of performances. */
  function SumVolume(perfs: seq<Record>): real {
    SumBy(perfs, PerfVolume)
  }

  /** `let totalVol = 0; for (const p of allPerfs) totalVol += perfVolume(p);` */
  method TotalVolume(perfs: seq<Record>) returns (total: real)
    ensures total == SumVolume(perfs)
  {
    total := 0.0;
    for i := 0 to |perfs|
      invariant total == SumVolume(perfs[..i])
    {
      assert perfs[..i + 1][..i] == perfs[..i];
      total := total + PerfVolume(perfs[i]);
    }
    assert perfs[..|perfs|] == perfs;
  }

  /** The total of a concatenation is the sum of the totals. */
  lemma SumVolumeAppend(a: seq<Record>, b: seq<Record>)
    ensures SumVolume(a + b) == SumVolume(a) + SumVolume(b)
  {
    SumByAppend(a, b, PerfVolume);
  }

  /** The total does not depend on the order of the performances, so summing
      before the date sort gives what summing after it would. */
  lemma SumVolumePermutation(a: seq<Record>, b: seq<Record>)
    requires multiset(a) == multiset(b)
    ensures SumVolume(a) == SumVolume(b)
  {
    SumByPermutation(a, b, PerfVolume);
  }

  // ---------------------------------------------------------------------------
  // The fifteen heaviest exercises

  /** The sort key `Number(ex.max_weight || 0)`; a value that converts to
      `NaN` is ranked as 0. */
  function MaxWeightKey(ex: Record): real {
    NumberOrZero(Or(Get(ex, "max_weight"), Num(0.0)))
  }

  /** Heaviest first by `key`: no entry weighs less than a later one. */
  predicate SortedDesc(s: seq<Record>, key: Record -> real) {
    forall i, j | 0 <= i < j < |s| :: key(s[j]) <= key(s[i])
  }

  predicate SortedByWeight(s: seq<Record>) {
    SortedDesc(s, MaxWeightKey)
  }

  /** Inserts `x` after every element at least as heavy, so that equal keys
      keep their input order. */
  function InsertDesc(x: Record, s: seq<Record>, key: Record -> real): (r: seq<Record>)
    ensures multiset(r) == multiset(s) + multiset{x}
    ensures |r| == |s| + 1
  {
    if s == [] then [x]
    else if key(x) <= key(s[0]) then
      var r := [s[0]] + InsertDesc(x, s[1..], key);
      assert s == [s[0]] + s[1..];
      r
    else [x] + s
  }

  /** Inserting keeps a common upper bound on the keys. */
  lemma {:induction false} InsertDescBound(x: Record, s: seq<Record>, key: Record -> real, bound: real)
    requires key(x) <= bound && forall i | 0 <= i < |s| :: key(s[i]) <= bound
    ensures forall i | 0 <= i < |s| + 1 :: key(InsertDesc(x, s, key)[i]) <= bound
  {
    if s != [] && key(x) <= key(s[0]) {
      InsertDescBound(x, s[1..], key, bound);
    }
  }

  lemma SortedCons(h: Record, t: seq<Record>, key: Record -> real)
    requires SortedDesc(t, key) && forall i | 0 <= i < |t| :: key(t[i]) <= key(h)
    ensures SortedDesc([h] + t, key)
  {
    var r := [h] + t;
    assert forall i | 0 < i < |r| :: r[i] == t[i - 1];
  }

  lemma {:induction false} InsertDescSorted(x: Record, s: seq<Record>, key: Record -> real)
    requires SortedDesc(s, key)
    ensures SortedDesc(InsertDesc(x, s, key), key)
  {
    if s == [] {
    } else if key(x) <= key(s[0]) {
      var rest := s[1..];
      assert forall i | 0 <= i < |rest| :: rest[i] == s[i + 1];
      InsertDescSorted(x, rest, key);
      InsertDescBound(x, rest, key, key(s[0]));
      SortedCons(s[0], InsertDesc(x, rest, key), key);
    } else {
      SortedCons(x, s, key);
    }
  }

  /** A stable insertion sort by `key`, heaviest first. */
  function SortDesc(s: seq<Record>, key: Record -> real): (r: seq<Record>)
    ensures multiset(r) == multiset(s) && |r| == |s|
  {
    if s == [] then []
    else
      assert s == s[..|s| - 1] + [s[|s| - 1]];
      InsertDesc(s[|s| - 1], SortDesc(s[..|s| - 1], key), key)
  }

  lemma {:induction false} SortDescSorted(s: seq<Record>, key: Record -> real)
    ensures SortedDesc(SortDesc(s, key), key)
  {
    if s != [] {
      SortDescSorted(s[..|s| - 1], key);
      InsertDescSorted(s[|s| - 1], SortDesc(s[..|s| - 1], key), key);
    }
  }

  function SortByWeight(s: seq<Record>): (r: seq<Record>)
    ensures multiset(r) == multiset(s) && |r| == |s|
  {
    SortDesc(s, MaxWeightKey)
  }

  lemma SortByWeightSorted(s: seq<Record>)
    ensures SortedByWeight(SortByWeight(s))
  {
    SortDescSorted(s, MaxWeightKey);
  }

  /** Every entry of `dropped` weighs no more than every entry of `kept`. */
  predicate NoneHeavier(dropped: multiset<Record>, kept: seq<Record>, key: Record -> real) {
    forall x | x in dropped :: forall j | 0 <= j < |kept| :: key(x) <= key(kept[j])
  }

  lemma SortedDescPrefix(sorted: seq<Record>, n: nat, key: Record -> real)
    requires SortedDesc(sorted, key) && n <= |sorted|
    ensures SortedDesc(sorted[..n], key)
  {
    assert forall i | 0 <= i < n :: sorted[..n][i] == sorted[i];
  }

  /** In a sorted list, nothing after position `n` is heavier than anything before it. */
  lemma SuffixNoneHeavier(sorted: seq<Record>, n: nat, key: Record -> real)
    requires SortedDesc(sorted, key) && n <= |sorted|
    ensures NoneHeavier(multiset(sorted[n..]), sorted[..n], key)
  {
    var top, rest := sorted[..n], sorted[n..];
    forall x | x in multiset(rest)
      ensures forall j | 0 <= j < n :: key(x) <= key(top[j])
    {
      var m :| 0 <= m < |rest| && rest[m] == x;
      assert sorted[n + m] == x;
      assert forall j | 0 <= j < n :: top[j] == sorted[j];
    }
  }

  lemma SplitMultiset(s: seq<Record>, sorted: seq<Record>, n: nat)
    requires multiset(sorted) == multiset(s) && n <= |sorted|
    ensures multiset(sorted[..n]) <= multiset(s)
    ensures multiset(s) - multiset(sorted[..n]) == multiset(sorted[n..])
  {
    assert sorted == sorted[..n] + sorted[n..];
    assert multiset(sorted) == multiset(sorted[..n]) + multiset(sorted[n..]);
  }

  /** The first `n` entries of a sorted permutation of `s`: sorted, drawn
      from `s`, and no lighter than anything of `s` left out. */
  lemma SortedPrefix(s: seq<Record>, sorted: seq<Record>, n: nat, key: Record -> real)
    requires multiset(sorted) == multiset(s) && SortedDesc(sorted, key) && n <= |sorted|
    ensures SortedDesc(sorted[..n], key)
    ensures multiset(sorted[..n]) <= multiset(s)
    ensures NoneHeavier(multiset(s) - multiset(sorted[..n]), sorted[..n], key)
  {
    SortedDescPrefix(sorted, n, key);
    SplitMultiset(s, sorted, n);
    SuffixNoneHeavier(sorted, n, key);
  }

  /** `exercises.slice().sort((a, b) => … b.max_weight … - … a.max_weight …).slice(0, 15)`:
      at most fifteen exercises, heaviest first, taken from a sorted copy of
      the input; every exercise left out is no heavier than every one kept. */
  function TopRecords(exercises: seq<Record>): (top: seq<Record>)
    ensures |top| == if |exercises| < 15 then |exercises| else 15
    ensures SortedByWeight(top)
    ensures multiset(top) <= multiset(exercises)
    ensures top == SortByWeight(exercises)[..|top|]
    ensures NoneHeavier(multiset(exercises) - multiset(top), top, MaxWeightKey)
  {
    var sorted := SortByWeight(exercises);
    SortByWeightSorted(exercises);
    var n := if |sorted| < 15 then |sorted| else 15;
    SortedPrefix(exercises, sorted, n, MaxWeightKey);
    sorted[..n]
  }

  // ---------------------------------------------------------------------------
  // History sorted by date

  /** The order of strings by Unicode code point, character by character:
      the order `localeCompare` is modelled by. */
  predicate LexLess(a: string, b: string) {
    if a == [] then b != []
    else if b == [] then false
    else a[0] < b[0] || (a[0] == b[0] && LexLess(a[1..], b[1..]))
  }

  lemma {:induction false} LexLessIrreflexive(a: string)
    ensures !LexLess(a, a)
  {
    if a != [] {
      LexLessIrreflexive(a[1..]);
    }
  }

  lemma {:induction false} LexLessAsymmetric(a: string, b: string)
    ensures !(LexLess(a, b) && LexLess(b, a))
  {
    if a != [] && b != [] && a[0] == b[0] {
      LexLessAsymmetric(a[1..], b[1..]);
    }
  }

  /** "Not less" is transitive: `LexLess` is a strict weak (indeed total) order. */
  lemma {:induction false} LexNotLessTransitive(a: string, b: string, c: string)
    requires !LexLess(a, b) && !LexLess(b, c)
    ensures !LexLess(a, c)
  {
    if a != [] && b != [] && c != [] && a[0] == b[0] && b[0] == c[0] {
      LexNotLessTransitive(a[1..], b[1..], c[1..]);
    }
  }

  /** The history key `a.date || a.created_at || ""`, as text. */
  function DateKey(p: Record, fmt: NumberFormat): string {
    JsString(Or(Or(Get(p, "date"), Get(p, "created_at")), Str("")), fmt)
  }

  function HistoryKey(fmt: NumberFormat): Record -> string {
    (p: Record) => DateKey(p, fmt)
  }

  predicate SortedByDate(s: seq<Record>, fmt: NumberFormat) {
    SortedNewestFirst(s, HistoryKey(fmt))
  }

  /** Newest first by `key`: no entry's key is below a later entry's key. */
  predicate SortedNewestFirst(s: seq<Record>, key: Record -> string) {
    forall i, j | 0 <= i < j < |s| :: !LexLess(key(s[i]), key(s[j]))
  }

  /** The state of insertion while the entry at `j` sinks into place in
      `s[..i + 1]`: every pair not involving `j` is in order, and every entry
      between `j` and `i` is strictly older than the one at `j`. */
  predicate Inserting(s: seq<Record>, i: nat, j: nat, key: Record -> string)
    requires j <= i < |s|
  {
    && (forall p, q | 0 <= p < q <= i && p != j && q != j :: !LexLess(key(s[p]), key(s[q])))
    && (forall q | j < q <= i :: LexLess(key(s[q]), key(s[j])))
  }

  lemma StartInserting(s: seq<Record>, i: nat, key: Record -> string)
    requires i < |s| && SortedNewestFirst(s[..i], key)
    ensures Inserting(s, i, i, key)
  {
    assert forall p | 0 <= p < i :: s[..i][p] == s[p];
  }

  /** Swapping the sinking entry with a strictly older neighbour moves it one
      place left and keeps the state. */
  lemma SwapStep(s: seq<Record>, i: nat, j: nat, key: Record -> string)
    requires 0 < j <= i < |s| && Inserting(s, i, j, key)
    requires LexLess(key(s[j - 1]), key(s[j]))
    ensures Inserting(s[j - 1 := s[j]][j := s[j - 1]], i, j - 1, key)
  {
    var t := s[j - 1 := s[j]][j := s[j - 1]];
    forall p, q | 0 <= p < q <= i && p != j - 1 && q != j - 1
      ensures !LexLess(key(t[p]), key(t[q]))
    {
      if q == j {
        assert t[q] == s[j - 1] && t[p] == s[p];
      } else if p == j {
        assert t[p] == s[j - 1] && t[q] == s[q];
      } else {
        assert t[p] == s[p] && t[q] == s[q];
      }
    }
    forall q | j - 1 < q <= i
      ensures LexLess(key(t[q]), key(t[j - 1]))
    {
      assert t[j - 1] == s[j];
      if q == j {
        assert t[q] == s[j - 1];
      } else {
        assert t[q] == s[q];
      }
    }
  }

  /** Once the entry at `j` is no newer than its left neighbour, `s[..i + 1]`
      is sorted. */
  lemma FinishInserting(s: seq<Record>, i: nat, j: nat, key: Record -> string)
    requires j <= i < |s| && Inserting(s, i, j, key)
    requires j == 0 || !LexLess(key(s[j - 1]), key(s[j]))
    ensures SortedNewestFirst(s[..i + 1], key)
  {
    forall p, q | 0 <= p < q <= i
      ensures !LexLess(key(s[p]), key(s[q]))
    {
      if q == j && p < j - 1 {
        LexNotLessTransitive(key(s[p]), key(s[j - 1]), key(s[j]));
      } else if p == j {
        LexLessAsymmetric(key(s[p]), key(s[q]));
      }
    }
    assert forall p | 0 <= p <= i :: s[..i + 1][p] == s[p];
  }

  lemma SwapKeepsMultiset<T>(s: seq<T>, p: nat, q: nat)
    requires p < q < |s|
    ensures multiset(s[p := s[q]][q := s[p]]) == multiset(s)
  {
    var t := s[p := s[q]][q := s[p]];
    assert s == s[..p] + [s[p]] + s[p + 1..q] + [s[q]] + s[q + 1..];
    assert t == s[..p] + [s[q]] + s[p + 1..q] + [s[p]] + s[q + 1..];
  }

  /** Exchanges two entries of the array. */
  method Swap(a: array<Record>, p: nat, q: nat)
    requires p < q < a.Length
    modifies a
    ensures a[..] == old(a[..])[p := old(a[q])][q := old(a[p])]
    ensures multiset(a[..]) == old(multiset(a[..]))
  {
    SwapKeepsMultiset(a[..], p, q);
    a[p], a[q] := a[q], a[p];
  }

  /** One pass of insertion: the entry at `i` sinks left past every
      strictly older entry, so that `a[..i + 1]` ends up sorted. */
  method SinkEntry(a: array<Record>, i: nat, key: Record -> string)
    requires i < a.Length && SortedNewestFirst(a[..i], key)
    modifies a
    ensures SortedNewestFirst(a[..i + 1], key)
    ensures multiset(a[..]) == old(multiset(a[..]))
  {
    StartInserting(a[..], i, key);
    var j := i;
    while j > 0 && LexLess(key(a[j - 1]), key(a[j]))
      invariant 0 <= j <= i
      invariant multiset(a[..]) == old(multiset(a[..]))
      invariant Inserting(a[..], i, j, key)
    {
      SwapStep(a[..], i, j, key);
      Swap(a, j - 1, j);
      j := j - 1;
    }
    FinishInserting(a[..], i, j, key);
    assert a[..][..i + 1] == a[..i + 1];
  }

  /** `allPerfs.sort((a, b) => String(db).localeCompare(String(da)))`, in place. */
  method SortHistory(a: array<Record>, fmt: NumberFormat)
    modifies a
    ensures SortedByDate(a[..], fmt)
    ensures multiset(a[..]) == old(multiset(a[..]))
  {
    var i := 0;
    while i < a.Length
      invariant 0 <= i <= a.Length
      invariant SortedNewestFirst(a[..i], HistoryKey(fmt))
      invariant multiset(a[..]) == old(multiset(a[..]))
    {
      SinkEntry(a, i, HistoryKey(fmt));
      i := i + 1;
    }
    assert a[..a.Length] == a[..];
  }

  /** `allPerfs.slice(0, 50)`. */
  function FirstFifty(sorted: seq<Record>): (shown: seq<Record>)
    ensures |shown| == if |sorted| < 50 then |sorted| else 50
    ensures shown == sorted[..|shown|]
  {
    if |sorted| <= 50 then sorted else sorted[..50]
  }

  // ---------------------------------------------------------------------------
  // Exercise names

  /** `ex.exercise || ex.name || "Exercice"`. */
  function ExerciseName(ex: Record): (name: Value)
    ensures Truthy(name)
  {
    Or(Or(Get(ex, "exercise"), Get(ex, "name")), Str("Exercice"))
  }

  /** The name table after the loop has seen `exercises`: each truthy
      `exercise_id`, as text, maps to the name, a later entry overwriting an
      earlier one. */
  function NameMapOf(exercises: seq<Record>, fmt: NumberFormat): map<string, Value> {
    if exercises == [] then map[]
    else
      var m := NameMapOf(exercises[..|exercises| - 1], fmt);
      var ex := exercises[|exercises| - 1];
      var id := Get(ex, "exercise_id");
      if Truthy(id) then m[JsString(id, fmt) := ExerciseName(ex)] else m
  }

  /** The loop that fills `exNameById`. */
  method BuildNameMap(exercises: seq<Record>, fmt: NumberFormat) returns (names: map<string, Value>)
    ensures names == NameMapOf(exercises, fmt)
  {
    names := map[];
    for i := 0 to |exercises|
      invariant names == NameMapOf(exercises[..i], fmt)
    {
      assert exercises[..i + 1][..i] == exercises[..i];
      var ex := exercises[i];
      var id := Get(ex, "exercise_id");
      if Truthy(id) {
        names := names[JsString(id, fmt) := ExerciseName(ex)];
      }
    }
    assert exercises[..|exercises|] == exercises;
  }

  /** The key of exercise `ex` in the name table, when it has one. */
  predicate KeyedAs(ex: Record, key: string, fmt: NumberFormat) {
    Truthy(Get(ex, "exercise_id")) && JsString(Get(ex, "exercise_id"), fmt) == key
  }

  /** The table has a key exactly for the ids of the exercises with a truthy id. */
  lemma {:induction false} NameMapKeys(exercises: seq<Record>, key: string, fmt: NumberFormat)
    ensures key in NameMapOf(exercises, fmt)
            <==> exists i | 0 <= i < |exercises| :: KeyedAs(exercises[i], key, fmt)
  {
    if exercises != [] {
      var n := |exercises| - 1;
      var front := exercises[..n];
      NameMapKeys(front, key, fmt);
      assert forall i | 0 <= i < n :: exercises[i] == front[i];
    }
  }

  /** Under each key is the name of the LAST exercise with that id. */
  lemma {:induction false} NameMapLastName(exercises: seq<Record>, key: string, fmt: NumberFormat, i: nat)
    requires i < |exercises| && KeyedAs(exercises[i], key, fmt)
    requires forall j | i < j < |exercises| :: !KeyedAs(exercises[j], key, fmt)
    ensures key in NameMapOf(exercises, fmt) && NameMapOf(exercises, fmt)[key] == ExerciseName(exercises[i])
  {
    var n := |exercises| - 1;
    var front := exercises[..n];
    if i < n {
      assert forall j | i < j < n :: front[j] == exercises[j];
      NameMapLastName(front, key, fmt, i);
    }
  }

  /** The table holds exactly the exercises with a truthy id, each under the
      name of the LAST exercise with that id. */
  lemma NameMapEntries(exercises: seq<Record>, key: string, fmt: NumberFormat)
    ensures key in NameMapOf(exercises, fmt)
            <==> exists i | 0 <= i < |exercises| :: KeyedAs(exercises[i], key, fmt)
    ensures forall i | 0 <= i < |exercises| && KeyedAs(exercises[i], key, fmt)
                       && (forall j | i < j < |exercises| :: !KeyedAs(exercises[j], key, fmt)) ::
              NameMapOf(exercises, fmt)[key] == ExerciseName(exercises[i])
  {
    NameMapKeys(exercises, key, fmt);
    forall i | 0 <= i < |exercises| && KeyedAs(exercises[i], key, fmt)
               && (forall j | i < j < |exercises| :: !KeyedAs(exercises[j], key, fmt))
      ensures NameMapOf(exercises, fmt)[key] == ExerciseName(exercises[i])
    {
      NameMapLastName(exercises, key, fmt, i);
    }
  }

  /** Every name in the table is truthy, so `get(…) || "Exercice"` never replaces a hit. */
  lemma {:induction false} NameMapValuesTruthy(exercises: seq<Record>, fmt: NumberFormat)
    ensures forall key | key in NameMapOf(exercises, fmt) :: Truthy(NameMapOf(exercises, fmt)[key])
  {
    if exercises != [] {
      NameMapValuesTruthy(exercises[..|exercises| - 1], fmt);
    }
  }

  /** `exNameById.get(key) || "Exercice"`. */
  function LookupName(names: map<string, Value>, key: string): (name: Value)
    ensures key !in names ==> name == Str("Exercice")
    ensures key in names && Truthy(names[key]) ==> name == names[key]
  {
    Or(if key in names then names[key] else Undefined, Str("Exercice"))
  }

  // ---------------------------------------------------------------------------
  // Merging the per-exercise performance lists

  /** `exercises.map(e => e.exercise_id).filter(Boolean)`. */
  function ExerciseIds(exercises: seq<Record>): (ids: seq<Value>)
    ensures forall k | 0 <= k < |ids| :: Truthy(ids[k])
    ensures forall k | 0 <= k < |ids| :: exists i | 0 <= i < |exercises| :: ids[k] == Get(exercises[i], "exercise_id")
    ensures forall i | 0 <= i < |exercises| && Truthy(Get(exercises[i], "exercise_id")) ::
              Get(exercises[i], "exercise_id") in ids
  {
    if exercises == [] then []
    else
      var front := ExerciseIds(exercises[..|exercises| - 1]);
      var id := Get(exercises[|exercises| - 1], "exercise_id");
      assert forall i | 0 <= i < |exercises| - 1 :: exercises[..|exercises| - 1][i] == exercises[i];
      if Truthy(id) then front + [id] else front
  }

  /** The ids keep the order of the exercises: the ids of two runs of
      exercises join end to end. */
  lemma {:induction false} ExerciseIdsAppend(a: seq<Record>, b: seq<Record>)
    ensures ExerciseIds(a + b) == ExerciseIds(a) + ExerciseIds(b)
  {
    if b == [] {
      assert a + b == a;
    } else {
      var front := b[..|b| - 1];
      ExerciseIdsAppend(a, front);
      assert (a + b)[..|a + b| - 1] == a + front;
      assert (a + b)[|a + b| - 1] == b[|b| - 1];
    }
  }

  /** One exercise contributes its id exactly when the id is truthy. */
  lemma ExerciseIdsSingle(ex: Record)
    ensures ExerciseIds([ex]) == if Truthy(Get(ex, "exercise_id")) then [Get(ex, "exercise_id")] else []
  {
    assert [ex][..0] == [];
  }

  /** `{ ...p, exercise_id: eid }`. Spreading anything but an object copies no
      property the script reads afterwards. */
  function Tag(p: Value, eid: Value): (r: Record)
    ensures Get(r, "exercise_id") == eid
    ensures forall k | k != "exercise_id" && p.Obj? :: Get(r, k) == Get(p.fields, k)
  {
    (if p.Obj? then p.fields else map[])["exercise_id" := eid]
  }

  /** The list one exercise contributes: its performances tagged with its id
      when the request answered with an array, nothing otherwise. */
  function PerfsOf(eid: Value, reply: Reply): (perfs: seq<Record>)
    ensures forall i | 0 <= i < |perfs| :: Get(perfs[i], "exercise_id") == eid
    ensures !(FetchJson(reply).Ok? && FetchJson(reply).value.Arr?) ==> perfs == []
    ensures FetchJson(reply).Ok? && FetchJson(reply).value.Arr? ==>
      |perfs| == |FetchJson(reply).value.items|
      && forall i | 0 <= i < |perfs| :: perfs[i] == Tag(FetchJson(reply).value.items[i], eid)
  {
    match FetchJson(reply)
    case Ok(Arr(items)) => seq(|items|, i requires 0 <= i < |items| => Tag(items[i], eid))
    case _ => []
  }

  /** The lists `f(x)` for each `x` of `xs`, joined in order. */
  function ConcatMap(xs: seq<Value>, f: Value -> seq<Record>): seq<Record> {
    if xs == [] then [] else ConcatMap(xs[..|xs| - 1], f) + f(xs[|xs| - 1])
  }

  lemma AppendAssoc<T>(a: seq<T>, b: seq<T>, c: seq<T>)
    ensures (a + b) + c == a + (b + c)
  {
  }

  lemma {:induction false} ConcatMapAppend(xs: seq<Value>, ys: seq<Value>, f: Value -> seq<Record>)
    ensures ConcatMap(xs + ys, f) == ConcatMap(xs, f) + ConcatMap(ys, f)
  {
    if ys == [] {
      assert xs + ys == xs;
    } else {
      var all, front, last := xs + ys, ys[..|ys| - 1], ys[|ys| - 1];
      ConcatMapAppend(xs, front, f);
      assert all[..|all| - 1] == xs + front;
      assert all[|all| - 1] == last;
      AppendAssoc(ConcatMap(xs, f), ConcatMap(front, f), f(last));
      calc {
        ConcatMap(all, f);
        ConcatMap(xs + front, f) + f(last);
        (ConcatMap(xs, f) + ConcatMap(front, f)) + f(last);
        ConcatMap(xs, f) + (ConcatMap(front, f) + f(last));
        ConcatMap(xs, f) + ConcatMap(ys, f);
      }
    }
  }

  lemma {:induction false} ConcatMapMember(xs: seq<Value>, f: Value -> seq<Record>)
    ensures forall y | y in ConcatMap(xs, f) :: exists k | 0 <= k < |xs| :: y in f(xs[k])
  {
    if xs != [] {
      var front := xs[..|xs| - 1];
      ConcatMapMember(front, f);
      assert forall k | 0 <= k < |front| :: front[k] == xs[k];
    }
  }

  /** Dropping an element that contributes nothing changes nothing. */
  lemma ConcatMapSkip(xs: seq<Value>, k: nat, f: Value -> seq<Record>)
    requires k < |xs| && f(xs[k]) == []
    ensures ConcatMap(xs, f) == ConcatMap(xs[..k] + xs[k + 1..], f)
  {
    var before, after := xs[..k], xs[k + 1..];
    assert xs == (before + [xs[k]]) + after;
    assert [xs[k]][..0] == [];
    assert ConcatMap([xs[k]], f) == ConcatMap([], f) + f(xs[k]);
    ConcatMapAppend(before + [xs[k]], after, f);
    ConcatMapAppend(before, [xs[k]], f);
    ConcatMapAppend(before, after, f);
  }

  /** What the request for each exercise id contributes. */
  function Contribution(fetchPerfs: Value -> Reply): Value -> seq<Record> {
    (eid: Value) => PerfsOf(eid, fetchPerfs(eid))
  }

  /** `(await Promise.all(requests)).flat()`: the lists in exercise order;
      `fetchPerfs(eid)` is the reply to the request for exercise `eid`. */
  function MergePerformances(ids: seq<Value>, fetchPerfs: Value -> Reply): seq<Record> {
    ConcatMap(ids, Contribution(fetchPerfs))
  }

  /** Merging is concatenation: the lists of two runs of ids join end to end. */
  lemma MergeAppend(ids1: seq<Value>, ids2: seq<Value>, fetchPerfs: Value -> Reply)
    ensures MergePerformances(ids1 + ids2, fetchPerfs)
            == MergePerformances(ids1, fetchPerfs) + MergePerformances(ids2, fetchPerfs)
  {
    ConcatMapAppend(ids1, ids2, Contribution(fetchPerfs));
  }

  /** The merge over one exercise id is that exercise's tagged list; with
      `MergeAppend`, the merge is each id's list in turn. */
  lemma MergeSingle(eid: Value, fetchPerfs: Value -> Reply)
    ensures MergePerformances([eid], fetchPerfs) == PerfsOf(eid, fetchPerfs(eid))
  {
    var f := Contribution(fetchPerfs);
    assert [eid][..0] == [];
    assert ConcatMap([eid], f) == ConcatMap([], f) + f(eid);
  }

  /** A failed or non-array request contributes nothing: dropping that
      exercise leaves the merge unchanged. */
  lemma MergeSkipsFailed(ids: seq<Value>, k: nat, fetchPerfs: Value -> Reply)
    requires k < |ids|
    requires !(FetchJson(fetchPerfs(ids[k])).Ok? && FetchJson(fetchPerfs(ids[k])).value.Arr?)
    ensures MergePerformances(ids, fetchPerfs) == MergePerformances(ids[..k] + ids[k + 1..], fetchPerfs)
  {
    var f := Contribution(fetchPerfs);
    assert f(ids[k]) == [];
    ConcatMapSkip(ids, k, f);
  }

  /** Every merged performance carries the id of the exercise it was fetched
      for, whatever `exercise_id` it came with. */
  lemma MergedAreTagged(ids: seq<Value>, fetchPerfs: Value -> Reply)
    ensures forall p | p in MergePerformances(ids, fetchPerfs) ::
              exists k | 0 <= k < |ids| :: Get(p, "exercise_id") == ids[k]
  {
    var f := Contribution(fetchPerfs);
    ConcatMapMember(ids, f);
    forall p | p in MergePerformances(ids, fetchPerfs)
      ensures exists k | 0 <= k < |ids| :: Get(p, "exercise_id") == ids[k]
    {
      var k :| 0 <= k < |ids| && p in f(ids[k]);
      var perfs := PerfsOf(ids[k], fetchPerfs(ids[k]));
      var i :| 0 <= i < |perfs| && perfs[i] == p;
    }
  }

  /** Every merged performance finds its exercise in the name table. */
  lemma MergedHaveNames(exercises: seq<Record>, fetchPerfs: Value -> Reply, fmt: NumberFormat)
    ensures forall p | p in MergePerformances(ExerciseIds(exercises), fetchPerfs) ::
              JsString(Get(p, "exercise_id"), fmt) in NameMapOf(exercises, fmt)
  {
    var ids := ExerciseIds(exercises);
    MergedAreTagged(ids, fetchPerfs);
    forall p | p in MergePerformances(ids, fetchPerfs)
      ensures JsString(Get(p, "exercise_id"), fmt) in NameMapOf(exercises, fmt)
    {
      var k :| 0 <= k < |ids| && Get(p, "exercise_id") == ids[k];
      var i :| 0 <= i < |exercises| && ids[k] == Get(exercises[i], "exercise_id");
      NameMapEntries(exercises, JsString(ids[k], fmt), fmt);
      assert KeyedAs(exercises[i], JsString(ids[k], fmt), fmt);
    }
  }

  // ---------------------------------------------------------------------------
  // The selected profile and the "Voir le profil" button

  /** The attributes of a clicked `.profile-card` (`None` when absent). */
  datatype ProfileCard = ProfileCard(userIdAttr: Option<string>, usernameAttr: Option<string>)

  datatype ViewAction =
    | AskToSelect                                        // alert, nothing opened or loaded
    | OpenProfile(userId: string, username: Option<string>)

  /** The `selected` object. */
  class Selection {
    var userId: Option<string>
    var username: Option<string>

    /** Only non-empty values are ever stored. */
    ghost predicate Valid()
      reads this
    {
      (userId.Some? ==> userId.value != "") && (username.Some? ==> username.value != "")
    }

    constructor ()
      ensures Valid() && userId.None? && username.None?
    {
      userId := None;
      username := None;
    }

    /** The capturing click listener: a click on a profile card stores each
        attribute the card carries; an absent or empty one leaves the
        previous value in place. */
    method OnClick(card: Option<ProfileCard>)
      requires Valid()
      modifies this
      ensures Valid()
      ensures userId == if card.Some? && card.value.userIdAttr.Some? && card.value.userIdAttr.value != ""
                        then card.value.userIdAttr else old(userId)
      ensures username == if card.Some? && card.value.usernameAttr.Some? && card.value.usernameAttr.value != ""
                          then card.value.usernameAttr else old(username)
    {
      if card.None? {
        return;
      }
      var attrs := card.value;
      if attrs.userIdAttr.Some? && attrs.userIdAttr.value != "" {
        userId := attrs.userIdAttr;
      }
      if attrs.usernameAttr.Some? && attrs.usernameAttr.value != "" {
        username := attrs.usernameAttr;
      }
    }

    /** The view button: the user is `selected.user_id || dsUserId`, where the
        login overlay's dataset values stand for `dsUserId` and `dsUsername`.
        Without a user id the profile is neither opened nor loaded. */
    method ViewTarget(dsUserId: Option<string>, dsUsername: Option<string>) returns (action: ViewAction)
      ensures action.OpenProfile? <==> (userId.Some? && userId.value != "") || (dsUserId.Some? && dsUserId.value != "")
      ensures action.OpenProfile? ==>
        action.userId == (if userId.Some? && userId.value != "" then userId.value else dsUserId.value)
        && action.username == (if username.Some? && username.value != "" then username
                               else if dsUsername.Some? && dsUsername.value != "" then dsUsername
                               else None)
    {
      var ds := if dsUserId.Some? && dsUserId.value != "" then dsUserId else None;
      var dsName := if dsUsername.Some? && dsUsername.value != "" then dsUsername else None;
      var id := if userId.Some? && userId.value != "" then userId else ds;
      var name := if username.Some? && username.value != "" then username else dsName;
      if id.None? {
        return AskToSelect;
      }
      return OpenProfile(id.value, name);
    }
  }

  // ---------------------------------------------------------------------------
  // Loading the profile

  /** The three header fields of the modal. */
  datatype Header = Header(name: Value, tier: Value, score: Value)

  /** A line of the "max" list and a line of the history. */
  datatype MaxRow = MaxRow(name: Value, weight: Value)
  datatype HistoryRow = HistoryRow(name: Value, weight: Value, reps: Value, date: string)

  /** What the profile modal shows once `loadProfile` has run. `Stopped` is a
      run cut short by an exercise entry that is `null` or `undefined`
      (reading its fields throws outside any `try`): the header is filled,
      the rest still shows its placeholders. */
  datatype ProfileView =
    | Shown(header: Header, volume: real, maxRows: seq<MaxRow>, history: seq<HistoryRow>)
    | Stopped(header: Header)

  /** Entry `u` of the users list is the user asked for: it can be read, and
      `String(u.user_id)` is the id. */
  predicate IsUser(u: Value, userId: string, fmt: NumberFormat) {
    AsRecord(u).Some? && JsString(Get(AsRecord(u).value, "user_id"), fmt) == userId
  }

  /** Where `find` stops: at the first entry that is the user or that throws. */
  function UserStop(users: seq<Value>, userId: string, fmt: NumberFormat): (k: nat)
    ensures k <= |users|
    ensures k < |users| ==> Nullish(users[k]) || IsUser(users[k], userId, fmt)
    ensures forall j | 0 <= j < k :: !Nullish(users[j]) && !IsUser(users[j], userId, fmt)
  {
    if users == [] then 0
    else if Nullish(users[0]) || IsUser(users[0], userId, fmt) then 0
    else 1 + UserStop(users[1..], userId, fmt)
  }

  /** `users.find(u => String(u.user_id) === String(userId))` inside its `try`:
      the first matching entry, or `None` when no entry matches or a `null`
      entry comes first (the `TypeError` is caught). */
  function FindUser(users: seq<Value>, userId: string, fmt: NumberFormat): (me: Option<Record>)
    ensures me.Some? ==> exists i | 0 <= i < |users| ::
              && IsUser(users[i], userId, fmt) && me == AsRecord(users[i])
              && forall j | 0 <= j < i :: !Nullish(users[j]) && !IsUser(users[j], userId, fmt)
    ensures me.None? <==> forall i | 0 <= i < |users| && IsUser(users[i], userId, fmt) ::
                            exists j | 0 <= j < i :: Nullish(users[j])
  {
    var k := UserStop(users, userId, fmt);
    if k < |users| && !Nullish(users[k]) then
      assert IsUser(users[k], userId, fmt);
      AsRecord(users[k])
    else
      assert forall i | 0 <= i < |users| && IsUser(users[i], userId, fmt) :: k < i;
      None
  }

  /** `usernameFromUi`, as the script sees it (`null` when absent). */
  function UiName(usernameFromUi: Option<string>): Value {
    if usernameFromUi.Some? then Str(usernameFromUi.value) else Null
  }

  /** The header after step 1: the placeholders, then the fields of the user
      when `/api/users` answered with a list in which `find` reaches them. */
  function HeaderOf(userId: string, usernameFromUi: Option<string>, usersReply: Reply, fmt: NumberFormat): (h: Header)
    ensures Truthy(h.name) && Truthy(h.tier) && !Nullish(h.score)
    ensures var users := FetchJson(usersReply);
      var me := if users.Ok? && users.value.Arr? then FindUser(users.value.items, userId, fmt) else None;
      && (me.None? ==> h == Header(Or(UiName(usernameFromUi), Str("Profil")), Str("—"), Str("—")))
      && (me.Some? ==>
            && h.name == FirstTruthy([Get(me.value, "username"), UiName(usernameFromUi)], Str("Profil"))
            && h.tier == FirstTruthy([Get(me.value, "tier")], Str("—"))
            && h.score == FirstPresent([Get(me.value, "score")], Str("—")))
  {
    var ui := UiName(usernameFromUi);
    var users := FetchJson(usersReply);
    var me := if users.Ok? && users.value.Arr? then FindUser(users.value.items, userId, fmt) else None;
    match me
    case None => Header(Or(ui, Str("Profil")), Str("—"), Str("—"))
    case Some(u) =>
      var name, tier := Get(u, "username"), Get(u, "tier");
      assert OrChain([ui], Str("Profil")) == Or(ui, Str("Profil"));
      assert OrChain([name, ui], Str("Profil")) == Or(name, Or(ui, Str("Profil")));
      assert OrChain([tier], Str("—")) == Or(tier, Str("—"));
      assert CoalesceChain([Get(u, "score")], Str("—")) == Coalesce(Get(u, "score"), Str("—"));
      OrChainIsFirstTruthy([name, ui], Str("Profil"));
      OrChainIsFirstTruthy([tier], Str("—"));
      CoalesceChainIsFirstPresent([Get(u, "score")], Str("—"));
      Header(Or(Or(name, ui), Str("Profil")), Or(tier, Str("—")), Coalesce(Get(u, "score"), Str("—")))
  }

  /** The exercises list after step 2: `[]` when the request failed or the
      answer is not an array. */
  function ExerciseItems(reply: Reply): seq<Value> {
    var raw := FetchJson(reply);
    if raw.Ok? && raw.value.Arr? then raw.value.items else []
  }

  /** One line of the "max" list. */
  function MaxRowOf(ex: Record): MaxRow {
    MaxRow(ExerciseName(ex), ToNumber(Or(Get(ex, "max_weight"), Num(0.0))))
  }

  function MaxRows(top: seq<Record>): seq<MaxRow> {
    seq(|top|, i requires 0 <= i < |top| => MaxRowOf(top[i]))
  }

  /** One line of the history. */
  function HistoryRowOf(p: Record, names: map<string, Value>, parse: Value -> Option<CalendarDate>,
                        fmt: NumberFormat): HistoryRow
  {
    var source := Or(Or(Get(p, "date"), Get(p, "created_at")), Str(""));
    HistoryRow(
      name := LookupName(names, JsString(Get(p, "exercise_id"), fmt)),
      weight := ToNumber(Or(Get(p, "weight"), Num(0.0))),
      reps := ToNumber(Or(Get(p, "reps"), Num(0.0))),
      date := FormatDateFR(source, parse(source), fmt))
  }

  function HistoryRows(shown: seq<Record>, names: map<string, Value>, parse: Value -> Option<CalendarDate>,
                       fmt: NumberFormat): seq<HistoryRow>
  {
    seq(|shown|, i requires 0 <= i < |shown| => HistoryRowOf(shown[i], names, parse, fmt))
  }

  /** The history order: the merged performances copied into an array and
      sorted there. */
  method OrderHistory(perfs: seq<Record>, fmt: NumberFormat) returns (ordered: seq<Record>)
    ensures SortedByDate(ordered, fmt) && multiset(ordered) == multiset(perfs)
  {
    var all := new Record[|perfs|](i requires 0 <= i < |perfs| => perfs[i]);
    assert all[..] == perfs;
    SortHistory(all, fmt);
    ordered := all[..];
  }

  /** Steps 2 and 3 of `loadProfile` once every exercise entry is readable:
      the "max" list, the total volume, and the history sorted newest first
      and cut to fifty lines. */
  method ShowExercises(exercises: seq<Record>, fetchPerfs: Value -> Reply, parse: Value -> Option<CalendarDate>,
                       fmt: NumberFormat)
    returns (maxRows: seq<MaxRow>, volume: real, history: seq<HistoryRow>, ordered: seq<Record>)
    ensures maxRows == MaxRows(TopRecords(exercises))
    ensures var perfs := MergePerformances(ExerciseIds(exercises), fetchPerfs);
      && volume == SumVolume(perfs)
      && SortedByDate(ordered, fmt) && multiset(ordered) == multiset(perfs)
      && history == HistoryRows(FirstFifty(ordered), NameMapOf(exercises, fmt), parse, fmt)
  {
    maxRows := MaxRows(TopRecords(exercises));
    var names := BuildNameMap(exercises, fmt);
    var perfs := MergePerformances(ExerciseIds(exercises), fetchPerfs);
    volume := TotalVolume(perfs);
    ordered := OrderHistory(perfs, fmt);
    history := HistoryRows(FirstFifty(ordered), names, parse, fmt);
  }

  /** `loadProfile(userId, usernameFromUi)`. Each request's reply is an input,
      `fetchPerfs(eid)` answering the performance request for exercise `eid`;
      `ordered` is the performance list after the date sort. */
  method LoadProfile(userId: string, usernameFromUi: Option<string>, usersReply: Reply, exercisesReply: Reply,
                     fetchPerfs: Value -> Reply, parse: Value -> Option<CalendarDate>, fmt: NumberFormat)
    returns (view: ProfileView, ordered: seq<Record>)
    ensures view.header == HeaderOf(userId, usernameFromUi, usersReply, fmt)
    ensures view.Stopped? <==> exists i | 0 <= i < |ExerciseItems(exercisesReply)| ::
                                 Nullish(ExerciseItems(exercisesReply)[i])
    ensures view.Shown? ==>
      var exercises := AsRecords(ExerciseItems(exercisesReply)).value;
      var perfs := MergePerformances(ExerciseIds(exercises), fetchPerfs);
      && view.volume == SumVolume(perfs)
      && view.maxRows == MaxRows(TopRecords(exercises))
      && SortedByDate(ordered, fmt) && multiset(ordered) == multiset(perfs)
      && view.history == HistoryRows(FirstFifty(ordered), NameMapOf(exercises, fmt), parse, fmt)
  {
    var header := HeaderOf(userId, usernameFromUi, usersReply, fmt);
    var records := AsRecords(ExerciseItems(exercisesReply));
    if records.None? {
      return Stopped(header), [];
    }
    var maxRows, volume, history;
    maxRows, volume, history, ordered := ShowExercises(records.value, fetchPerfs, parse, fmt);
    view := Shown(header, volume, maxRows, history);
  }
}

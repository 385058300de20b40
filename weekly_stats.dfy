/** `WeeklyStatsService`: the seven Monday-to-Sunday days around a date, each
    with the day's summed diet nutrients and exercise totals. */
module WeeklyStats {
  import opened Wrappers
  import opened Calendar
  import opened Collaborators
  import Sorting

  datatype DailyDietStat = DailyDietStat(
    date: Date, dayOfWeekKr: string,
    totalCarbohydrate: int, totalProtein: int, totalFat: int, totalCalories: int)

  datatype DailyExerciseStat = DailyExerciseStat(
    date: Date, dayOfWeekKr: string, totalDurationMinutes: int, totalCalories: int)

  datatype WeeklyStatsResponse = WeeklyStatsResponse(
    weekStartDate: Date, weekEndDate: Date,
    dietStats: seq<DailyDietStat>, exerciseStats: seq<DailyExerciseStat>)

  function DietDate(s: DailyDietStat): int { s.date }

  function ExerciseDate(s: DailyExerciseStat): int { s.date }

  /** The sum of `f` over `s`. */
  function Sum<T>(s: seq<T>, f: T -> int): int {
    if s == [] then 0 else Sum(s[..|s| - 1], f) + f(s[|s| - 1])
  }

  lemma {:induction false} SumAppend<T>(a: seq<T>, b: seq<T>, f: T -> int)
    ensures Sum(a + b, f) == Sum(a, f) + Sum(b, f)
  {
    if b != [] {
      var ab := a + b;
      assert ab[..|ab| - 1] == a + b[..|b| - 1];
      assert ab[|ab| - 1] == b[|b| - 1];
      SumAppend(a, b[..|b| - 1], f);
    } else {
      assert a + b == a;
    }
  }

  /** Extending a prefix by one element adds that element's term. */
  lemma SumSnoc<T>(s: seq<T>, j: nat, f: T -> int)
    requires j < |s|
    ensures Sum(s[..j + 1], f) == Sum(s[..j], f) + f(s[j])
  {
    assert s[..j + 1][..j] == s[..j];
  }

  /** A sum does not depend on the order of its terms. */
  lemma {:induction false} SumPermutation<T>(a: seq<T>, b: seq<T>, f: T -> int)
    requires multiset(a) == multiset(b)
    ensures Sum(a, f) == Sum(b, f)
    decreases |a|
  {
    if a != [] {
      var x, init := a[|a| - 1], a[..|a| - 1];
      assert a == init + [x];
      var k := Sorting.PickMatch(a, b);
      var pre, post := b[..k], b[k + 1..];
      SumPermutation(init, pre + post, f);
      SumAppend(init, [x], f);
      SumAppend(pre + [x], post, f);
      SumAppend(pre, [x], f);
      SumAppend(pre, post, f);
      assert Sum([x], f) == f(x) by { assert [x][..0] == []; }
    }
  }

  datatype Nutrient = Carbohydrate | Protein | Fat | Calories

  /** One food's amount of a nutrient; a null amount counts as 0. */
  function Amount(food: DietFood, n: Nutrient): int {
    var v := match n
      case Carbohydrate => food.carbs
      case Protein => food.protein
      case Fat => food.fat
      case Calories => food.calories;
    if v.Some? then v.value else 0
  }

  function AmountOf(n: Nutrient): DietFood -> int {
    food => Amount(food, n)
  }

  /** A record's foods; a null list is empty. */
  function Foods(record: DietRecord): seq<DietFood> {
    if record.items.Some? then record.items.value else []
  }

  function RecordTotal(n: Nutrient): DietRecord -> int {
    record => Sum(Foods(record), AmountOf(n))
  }

  /** The nutrient summed over every food of every record. */
  function DietTotal(diets: seq<DietRecord>, n: Nutrient): int {
    Sum(diets, RecordTotal(n))
  }

  datatype Measure = Minutes | BurnedCalories

  function ExerciseAmount(e: ExerciseRecord, m: Measure): int {
    var v := if m == Minutes then e.durationMinutes else e.calories;
    if v.Some? then v.value else 0
  }

  function ExerciseAmountOf(m: Measure): ExerciseRecord -> int {
    e => ExerciseAmount(e, m)
  }

  /** The measure summed over the day's exercise records. */
  function ExerciseTotal(exercises: seq<ExerciseRecord>, m: Measure): int {
    Sum(exercises, ExerciseAmountOf(m))
  }

  /** The diet stat of `date` over its records. */
  function DietStatOf(diets: seq<DietRecord>, date: Date): DailyDietStat {
    DailyDietStat(date, KoreanDay(date),
      DietTotal(diets, Carbohydrate), DietTotal(diets, Protein), DietTotal(diets, Fat), DietTotal(diets, Calories))
  }

  /** The exercise stat of `date` over its records. */
  function ExerciseStatOf(exercises: seq<ExerciseRecord>, date: Date): DailyExerciseStat {
    DailyExerciseStat(date, KoreanDay(date), ExerciseTotal(exercises, Minutes), ExerciseTotal(exercises, BurnedCalories))
  }

  /** The response `getWeeklyStats(email, baseDate)` builds. */
  function Weekly(r: Records, email: string, baseDate: Date): WeeklyStatsResponse {
    var start := WeekStart(baseDate);
    WeeklyStatsResponse(start, start + 6,
      seq(7, i => DietStatOf(MyDiets(r, email, start + i), start + i)),
      seq(7, i => ExerciseStatOf(MyExercises(r, email, start + i), start + i)))
  }

  /** `calculateDietStat`: the day's four nutrient totals over every food of
      every record, with null lists and null amounts counted as 0. */
  method CalculateDietStat(r: Records, email: string, date: Date) returns (stat: DailyDietStat)
    ensures stat.date == date && stat.dayOfWeekKr == KoreanDay(date)
    ensures stat.totalCarbohydrate == DietTotal(MyDiets(r, email, date), Carbohydrate)
    ensures stat.totalProtein == DietTotal(MyDiets(r, email, date), Protein)
    ensures stat.totalFat == DietTotal(MyDiets(r, email, date), Fat)
    ensures stat.totalCalories == DietTotal(MyDiets(r, email, date), Calories)
  {
    var diets := MyDiets(r, email, date);
    var carbs, protein, fat, calories := 0, 0, 0, 0;
    var i := 0;
    while i < |diets|
      invariant 0 <= i <= |diets|
      invariant carbs == DietTotal(diets[..i], Carbohydrate)
      invariant protein == DietTotal(diets[..i], Protein)
      invariant fat == DietTotal(diets[..i], Fat)
      invariant calories == DietTotal(diets[..i], Calories)
    {
      var items := Foods(diets[i]);
      var j := 0;
      while j < |items|
        invariant 0 <= j <= |items|
        invariant carbs == DietTotal(diets[..i], Carbohydrate) + Sum(items[..j], AmountOf(Carbohydrate))
        invariant protein == DietTotal(diets[..i], Protein) + Sum(items[..j], AmountOf(Protein))
        invariant fat == DietTotal(diets[..i], Fat) + Sum(items[..j], AmountOf(Fat))
        invariant calories == DietTotal(diets[..i], Calories) + Sum(items[..j], AmountOf(Calories))
      {
        var item := items[j];
        SumSnoc(items, j, AmountOf(Carbohydrate));
        SumSnoc(items, j, AmountOf(Protein));
        SumSnoc(items, j, AmountOf(Fat));
        SumSnoc(items, j, AmountOf(Calories));
        carbs := carbs + (if item.carbs.Some? then item.carbs.value else 0);
        protein := protein + (if item.protein.Some? then item.protein.value else 0);
        fat := fat + (if item.fat.Some? then item.fat.value else 0);
        calories := calories + (if item.calories.Some? then item.calories.value else 0);
        j := j + 1;
      }
      assert items[..j] == items;
      SumSnoc(diets, i, RecordTotal(Carbohydrate));
      SumSnoc(diets, i, RecordTotal(Protein));
      SumSnoc(diets, i, RecordTotal(Fat));
      SumSnoc(diets, i, RecordTotal(Calories));
      i := i + 1;
    }
    assert diets[..i] == diets;
    stat := DailyDietStat(date, KoreanDay(date), carbs, protein, fat, calories);
  }

  /** `calculateExerciseStat`: the day's summed minutes and burned calories,
      with null values counted as 0. */
  method CalculateExerciseStat(r: Records, email: string, date: Date) returns (stat: DailyExerciseStat)
    ensures stat.date == date && stat.dayOfWeekKr == KoreanDay(date)
    ensures stat.totalDurationMinutes == ExerciseTotal(MyExercises(r, email, date), Minutes)
    ensures stat.totalCalories == ExerciseTotal(MyExercises(r, email, date), BurnedCalories)
  {
    var exercises := MyExercises(r, email, date);
    var duration, calories := 0, 0;
    var i := 0;
    while i < |exercises|
      invariant 0 <= i <= |exercises|
      invariant duration == ExerciseTotal(exercises[..i], Minutes)
      invariant calories == ExerciseTotal(exercises[..i], BurnedCalories)
    {
      var e := exercises[i];
      SumSnoc(exercises, i, ExerciseAmountOf(Minutes));
      SumSnoc(exercises, i, ExerciseAmountOf(BurnedCalories));
      duration := duration + (if e.durationMinutes.Some? then e.durationMinutes.value else 0);
      calories := calories + (if e.calories.Some? then e.calories.value else 0);
      i := i + 1;
    }
    assert exercises[..i] == exercises;
    stat := DailyExerciseStat(date, KoreanDay(date), duration, calories);
  }

  /** `getWeeklyStats`: the Monday-start week of `baseDate`, one diet and one
      exercise stat per day, the i-th dated `weekStart + i`. */
  method GetWeeklyStats(r: Records, email: string, baseDate: Date) returns (resp: WeeklyStatsResponse)
    ensures resp.weekStartDate == WeekStart(baseDate) && resp.weekEndDate == resp.weekStartDate + 6
    ensures |resp.dietStats| == 7 && |resp.exerciseStats| == 7
    ensures resp == Weekly(r, email, baseDate)
  {
    var startDate := WeekStart(baseDate);
    var endDate := startDate + 6;
    ghost var want := Weekly(r, email, baseDate);
    var dietStats: seq<DailyDietStat> := [];
    var exerciseStats: seq<DailyExerciseStat> := [];
    for i := 0 to 7
      invariant dietStats == want.dietStats[..i] && exerciseStats == want.exerciseStats[..i]
    {
      var current := startDate + i;
      var d := CalculateDietStat(r, email, current);
      var e := CalculateExerciseStat(r, email, current);
      assert want.dietStats[i] == DietStatOf(MyDiets(r, email, current), current);
      assert want.exerciseStats[i] == ExerciseStatOf(MyExercises(r, email, current), current);
      assert want.dietStats[..i + 1] == dietStats + [d];
      assert want.exerciseStats[..i + 1] == exerciseStats + [e];
      dietStats := dietStats + [d];
      exerciseStats := exerciseStats + [e];
    }
    assert want.dietStats[..7] == want.dietStats && want.exerciseStats[..7] == want.exerciseStats;
    resp := WeeklyStatsResponse(startDate, endDate, dietStats, exerciseStats);
  }

  /** A day whose records carry no foods, or only null amounts, totals 0. */
  lemma {:induction false} DietTotalWithoutAmounts(diets: seq<DietRecord>, n: Nutrient)
    requires forall i, j :: 0 <= i < |diets| && 0 <= j < |Foods(diets[i])| ==> Amount(Foods(diets[i])[j], n) == 0
    ensures DietTotal(diets, n) == 0
  {
    if diets != [] {
      var last := Foods(diets[|diets| - 1]);
      FoodsWithoutAmounts(last, n);
      DietTotalWithoutAmounts(diets[..|diets| - 1], n);
    }
  }

  lemma {:induction false} FoodsWithoutAmounts(foods: seq<DietFood>, n: Nutrient)
    requires forall j :: 0 <= j < |foods| ==> Amount(foods[j], n) == 0
    ensures Sum(foods, AmountOf(n)) == 0
  {
    if foods != [] {
      FoodsWithoutAmounts(foods[..|foods| - 1], n);
    }
  }

  /** A day with no records yields all-zero totals. */
  lemma EmptyDayIsZero(date: Date)
    ensures DietStatOf([], date) == DailyDietStat(date, KoreanDay(date), 0, 0, 0, 0)
    ensures ExerciseStatOf([], date) == DailyExerciseStat(date, KoreanDay(date), 0, 0)
  {
  }

  /** Diet totals do not depend on the order the records come in. */
  lemma DietTotalOrderIndependent(a: seq<DietRecord>, b: seq<DietRecord>, n: Nutrient)
    requires multiset(a) == multiset(b)
    ensures DietTotal(a, n) == DietTotal(b, n)
  {
    SumPermutation(a, b, RecordTotal(n));
  }

  /** Exercise totals do not depend on the order the records come in. */
  lemma ExerciseTotalOrderIndependent(a: seq<ExerciseRecord>, b: seq<ExerciseRecord>, m: Measure)
    requires multiset(a) == multiset(b)
    ensures ExerciseTotal(a, m) == ExerciseTotal(b, m)
  {
    SumPermutation(a, b, ExerciseAmountOf(m));
  }

  /** The diet total of two batches of records is the sum of their totals. */
  lemma DietTotalAppend(a: seq<DietRecord>, b: seq<DietRecord>, n: Nutrient)
    ensures DietTotal(a + b, n) == DietTotal(a, n) + DietTotal(b, n)
  {
    SumAppend(a, b, RecordTotal(n));
  }

  /** The window's i-th diet and exercise stats are both dated `weekStart + i`
      and carry that date's weekday label, so the stats are in date order. */
  lemma WeeklyWindow(r: Records, email: string, baseDate: Date)
    ensures var w := Weekly(r, email, baseDate);
      && w.weekStartDate == WeekStart(baseDate) && w.weekEndDate == w.weekStartDate + 6
      && w.weekStartDate <= baseDate <= w.weekEndDate
      && |w.dietStats| == 7 && |w.exerciseStats| == 7
      && (forall i :: 0 <= i < 7 ==>
            w.dietStats[i].date == w.weekStartDate + i && w.exerciseStats[i].date == w.weekStartDate + i)
      && (forall i :: 0 <= i < 7 ==>
            w.dietStats[i].dayOfWeekKr == KoreanDay(w.weekStartDate + i) == w.exerciseStats[i].dayOfWeekKr)
      && Sorting.SortedBy(w.dietStats, DietDate)
      && Sorting.SortedBy(w.exerciseStats, ExerciseDate)
  {
    var w := Weekly(r, email, baseDate);
    var start := WeekStart(baseDate);
    forall i | 0 <= i < 7
      ensures w.dietStats[i] == DietStatOf(MyDiets(r, email, start + i), start + i)
      ensures w.exerciseStats[i] == ExerciseStatOf(MyExercises(r, email, start + i), start + i)
    {
    }
  }

  /** The window's labels run 월요일 to 일요일. */
  lemma WeeklyLabels(r: Records, email: string, baseDate: Date)
    ensures var w := Weekly(r, email, baseDate);
      && w.dietStats[0].dayOfWeekKr == "월요일" && w.dietStats[1].dayOfWeekKr == "화요일"
      && w.dietStats[2].dayOfWeekKr == "수요일" && w.dietStats[3].dayOfWeekKr == "목요일"
      && w.dietStats[4].dayOfWeekKr == "금요일" && w.dietStats[5].dayOfWeekKr == "토요일"
      && w.dietStats[6].dayOfWeekKr == "일요일"
  {
    WeeklyWindow(r, email, baseDate);
    KoreanDaysOfWeek(baseDate);
  }
}

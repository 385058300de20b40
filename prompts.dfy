/** The prompts the services send, by content: the target date, the profile,
    the slice of weekly stats they embed and, for chat, the user's message.
    The template wording is not modelled. */
module Prompts {
  import opened Calendar
  import opened Collaborators
  import opened WeeklyStats
  import opened Sorting

  datatype Prompt =
    | ChatPrompt(date: Date, profile: Profile,
                 diet: seq<DailyDietStat>, exercise: seq<DailyExerciseStat>, message: string)
    | MealPlanPrompt(planDate: Date, profile: Profile, diet: seq<DailyDietStat>)
    | ExerciseReviewPrompt(evaluationDate: Date, profile: Profile, exercise: seq<DailyExerciseStat>)
    | NutritionReviewPrompt(evaluationDate: Date, profile: Profile, diet: seq<DailyDietStat>)

  /** `stats.stream().filter(s -> !s.getDate().isAfter(date)).sorted(comparing(getDate))`. */
  function Until<T>(stats: seq<T>, key: T -> int, date: Date): seq<T> {
    SortBy(UpTo(stats, key, date), key)
  }

  /** The filtered-and-sorted slice holds exactly the stats dated at most
      `date`, in ascending date order. */
  lemma UntilSpec<T>(stats: seq<T>, key: T -> int, date: Date)
    ensures SortedBy(Until(stats, key, date), key)
    ensures forall i :: 0 <= i < |Until(stats, key, date)| ==> key(Until(stats, key, date)[i]) <= date
    ensures multiset(Until(stats, key, date)) <= multiset(stats)
    ensures forall x :: x in stats && key(x) <= date ==> x in Until(stats, key, date)
    ensures forall x :: multiset(Until(stats, key, date))[x] == if key(x) <= date then multiset(stats)[x] else 0
  {
    var u := UpTo(stats, key, date);
    var r := Until(stats, key, date);
    SortByOrdered(u, key);
    SortByPermutes(u, key);
    UpToSubset(stats, key, date);
    forall i | 0 <= i < |r| ensures key(r[i]) <= date {
      assert r[i] in multiset(u);
      var k :| 0 <= k < |u| && u[k] == r[i];
    }
    forall x ensures multiset(r)[x] == if key(x) <= date then multiset(stats)[x] else 0 {
      UpToCount(stats, key, date, x);
    }
    forall x | x in stats && key(x) <= date ensures x in r {
      UpToKeeps(stats, key, date, x);
      assert x in multiset(u);
    }
  }

  /** Over a week from `getWeeklyStats(email, date)`, the slice is the week's
      days from Monday up to `date`, in order. */
  lemma {:induction false} WeeklyDietUntil(r: Records, email: string, date: Date)
    ensures var w := Weekly(r, email, date);
      Until(w.dietStats, DietDate, date) == w.dietStats[..date - WeekStart(date) + 1]
  {
    var w := Weekly(r, email, date);
    WeeklyWindow(r, email, date);
    UpToPrefix(w.dietStats, DietDate, date, date - WeekStart(date) + 1);
    var p := w.dietStats[..date - WeekStart(date) + 1];
    assert SortedBy(p, DietDate);
    SortBySorted(p, DietDate);
  }

  /** The same for the exercise stats. */
  lemma {:induction false} WeeklyExerciseUntil(r: Records, email: string, date: Date)
    ensures var w := Weekly(r, email, date);
      Until(w.exerciseStats, ExerciseDate, date) == w.exerciseStats[..date - WeekStart(date) + 1]
  {
    var w := Weekly(r, email, date);
    WeeklyWindow(r, email, date);
    UpToPrefix(w.exerciseStats, ExerciseDate, date, date - WeekStart(date) + 1);
    var p := w.exerciseStats[..date - WeekStart(date) + 1];
    assert SortedBy(p, ExerciseDate);
    SortBySorted(p, ExerciseDate);
  }
}

/** The three activity histories the dashboard loads, and the rolling
    seven-day counts it shows. Timestamps are abstracted: `day` numbers the
    local calendar day of `occurred_at`, `instant` is its millisecond value. */
module Activity {
  import opened Common

  /** A row of `meal_logs`; `healthy` is a nullable boolean column. */
  datatype Meal = Meal(day: int, instant: int, healthy: Option<bool>)

  /** A row of `exercise_logs`; `together` is a nullable boolean column. */
  datatype Exercise = Exercise(day: int, instant: int, together: Option<bool>)

  /** A row of `mood_checkins`. */
  datatype Mood = Mood(day: int, instant: int, mood: string)

  /** `Array.prototype.filter`: the elements satisfying `p`, in order. */
  function Filter<T(!new)>(s: seq<T>, p: T -> bool): (r: seq<T>)
    ensures |r| <= |s|
    ensures forall x :: x in r <==> x in s && p(x)
    decreases |s|
  {
    if s == [] then []
    else
      var init := Filter(s[..|s| - 1], p);
      assert s == s[..|s| - 1] + [s[|s| - 1]];
      if p(s[|s| - 1]) then init + [s[|s| - 1]] else init
  }

  /** Filtering distributes over concatenation. */
  lemma {:induction false} FilterAppend<T(!new)>(a: seq<T>, b: seq<T>, p: T -> bool)
    ensures Filter(a + b, p) == Filter(a, p) + Filter(b, p)
    decreases |b|
  {
    if b == [] {
      assert a + b == a;
    } else {
      var b' := b[..|b| - 1];
      assert (a + b)[..|a + b| - 1] == a + b';
      FilterAppend(a, b', p);
    }
  }

  /** A weaker condition never selects fewer elements. */
  lemma {:induction false} FilterWeaker<T(!new)>(s: seq<T>, p: T -> bool, q: T -> bool)
    requires forall x :: p(x) ==> q(x)
    ensures |Filter(s, p)| <= |Filter(s, q)|
    decreases |s|
  {
    if s != [] {
      FilterWeaker(s[..|s| - 1], p, q);
    }
  }

  /** `new Date(occurred_at) >= cutoff`: the cutoff itself is inside the window. */
  function ExerciseInWindow(cutoff: int): Exercise -> bool {
    (e: Exercise) => e.instant >= cutoff
  }

  /** Only `healthy === true` counts: null and false are the same here. */
  function HealthyInWindow(cutoff: int): Meal -> bool {
    (m: Meal) => m.instant >= cutoff && m.healthy == Some(true)
  }

  /** `e.together` counts only when truthy: null and false do not count. */
  function TogetherInWindow(cutoff: int): Exercise -> bool {
    (e: Exercise) => e.instant >= cutoff && e.together == Some(true)
  }

  function MoodInWindow(cutoff: int): Mood -> bool {
    (m: Mood) => m.instant >= cutoff
  }

  /** `exercisesThisWeek`: no more than the history holds, and zero exactly
      when no exercise is at or after the cutoff. */
  function ExercisesThisWeek(exercises: seq<Exercise>, cutoff: int): (n: nat)
    ensures n <= |exercises|
    ensures n == 0 <==> forall e :: e in exercises ==> e.instant < cutoff
  {
    var w := Filter(exercises, ExerciseInWindow(cutoff));
    assert w != [] ==> w[0] in w;
    |w|
  }

  /** `healthyMealsThisWeek`: zero exactly when no meal in the window is
      marked healthy. */
  function HealthyMealsThisWeek(meals: seq<Meal>, cutoff: int): (n: nat)
    ensures n <= |meals|
    ensures n == 0 <==> forall m :: m in meals && m.instant >= cutoff ==> m.healthy != Some(true)
  {
    var w := Filter(meals, HealthyInWindow(cutoff));
    assert w != [] ==> w[0] in w;
    |w|
  }

  /** `togetherActivities`: zero exactly when no exercise in the window was
      done together. */
  function TogetherThisWeek(exercises: seq<Exercise>, cutoff: int): (n: nat)
    ensures n <= |exercises|
    ensures n == 0 <==> forall e :: e in exercises && e.instant >= cutoff ==> e.together != Some(true)
  {
    var w := Filter(exercises, TogetherInWindow(cutoff));
    assert w != [] ==> w[0] in w;
    |w|
  }

  /** `checkinsThisWeek`: zero exactly when no check-in is at or after the
      cutoff. */
  function CheckinsThisWeek(moods: seq<Mood>, cutoff: int): (n: nat)
    ensures n <= |moods|
    ensures n == 0 <==> forall m :: m in moods ==> m.instant < cutoff
  {
    var w := Filter(moods, MoodInWindow(cutoff));
    assert w != [] ==> w[0] in w;
    |w|
  }

  /** The labels of the moods in the window, in history order. */
  function WindowMoods(moods: seq<Mood>, cutoff: int): (labels: seq<string>)
    ensures |labels| == CheckinsThisWeek(moods, cutoff)
    ensures forall i :: 0 <= i < |labels| ==>
              labels[i] == Filter(moods, MoodInWindow(cutoff))[i].mood
  {
    var w := Filter(moods, MoodInWindow(cutoff));
    seq(|w|, i requires 0 <= i < |w| => w[i].mood)
  }

  /** Together activities are a subset of the week's exercises. */
  lemma TogetherAtMostExercises(exercises: seq<Exercise>, cutoff: int)
    ensures TogetherThisWeek(exercises, cutoff) <= ExercisesThisWeek(exercises, cutoff)
  {
    FilterWeaker(exercises, TogetherInWindow(cutoff), ExerciseInWindow(cutoff));
  }

  /** One more exercise counts exactly when it is at or after the cutoff. */
  lemma ExerciseAtCutoffCounts(exercises: seq<Exercise>, e: Exercise, cutoff: int)
    ensures ExercisesThisWeek(exercises + [e], cutoff)
            == ExercisesThisWeek(exercises, cutoff) + (if e.instant >= cutoff then 1 else 0)
  {
    FilterAppend(exercises, [e], ExerciseInWindow(cutoff));
  }

  /** One more meal counts exactly when it is in the window and marked healthy. */
  lemma HealthyOnlyWhenTrue(meals: seq<Meal>, m: Meal, cutoff: int)
    ensures HealthyMealsThisWeek(meals + [m], cutoff)
            == HealthyMealsThisWeek(meals, cutoff)
               + (if m.instant >= cutoff && m.healthy == Some(true) then 1 else 0)
  {
    FilterAppend(meals, [m], HealthyInWindow(cutoff));
  }

  /** One more exercise counts as together exactly when it is in the window
      and `together` is true. */
  lemma TogetherWhenMarked(exercises: seq<Exercise>, e: Exercise, cutoff: int)
    ensures TogetherThisWeek(exercises + [e], cutoff)
            == TogetherThisWeek(exercises, cutoff)
               + (if e.instant >= cutoff && e.together == Some(true) then 1 else 0)
  {
    FilterAppend(exercises, [e], TogetherInWindow(cutoff));
  }

  /** One more mood counts as a check-in exactly when it is at or after the
      cutoff. */
  lemma CheckinAtCutoffCounts(moods: seq<Mood>, m: Mood, cutoff: int)
    ensures CheckinsThisWeek(moods + [m], cutoff)
            == CheckinsThisWeek(moods, cutoff) + (if m.instant >= cutoff then 1 else 0)
  {
    FilterAppend(moods, [m], MoodInWindow(cutoff));
  }

  /** Every mood in the window is a check-in, whatever its label. */
  lemma CheckinsIgnoreLabel(moods: seq<Mood>, m: Mood, relabel: string, cutoff: int)
    ensures CheckinsThisWeek(moods + [m], cutoff)
            == CheckinsThisWeek(moods + [Mood(m.day, m.instant, relabel)], cutoff)
  {
    FilterAppend(moods, [m], MoodInWindow(cutoff));
    FilterAppend(moods, [Mood(m.day, m.instant, relabel)], MoodInWindow(cutoff));
  }
}

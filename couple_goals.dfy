/** The CoupleGoals card: a fixed list of three goals, each shown with a
    rounded percentage (`Math.round(current / target * 100)`, no clamp) and a
    completion mark (`current >= target`). The component takes no props. */
module CoupleGoals {

  datatype Goal = Goal(id: string, current: int, target: int)

  /** The card's row for one goal. */
  datatype GoalView = GoalView(id: string, progress: int, isComplete: bool)

  /** `mockGoals`: titles, emojis and units are presentation only. */
  const MockGoals: seq<Goal> := [Goal("1", 2, 3), Goal("2", 12, 14), Goal("3", 5, 7)]

  /** `Math.round(current / target * 100)` in exact arithmetic: the integer
      nearest to 100 * current / target, halves rounded up. */
  function Progress(current: int, target: int): (p: int)
    requires target > 0
    ensures 2 * target * p <= 200 * current + target < 2 * target * (p + 1)
  {
    (200 * current + target) / (2 * target)
  }

  /** `goal.current >= goal.target`: a complete goal shows at least 100%,
      an incomplete one at most 100% (so 100% alone does not mean done). */
  predicate IsComplete(current: int, target: int)
    ensures target > 0 && IsComplete(current, target) ==> Progress(current, target) >= 100
    ensures target > 0 && !IsComplete(current, target) ==> Progress(current, target) <= 100
  {
    if target > 0 then
      var p := Progress(current, target);
      if current >= target then ScaledLess(2 * target, 100, p + 1); true
      else ScaledLess(2 * target, p, 101); false
    else current >= target
  }

  function View(g: Goal): (v: GoalView)
    requires g.target > 0
    ensures v.id == g.id && v.progress == Progress(g.current, g.target)
    ensures v.isComplete <==> g.current >= g.target
  {
    GoalView(g.id, Progress(g.current, g.target), IsComplete(g.current, g.target))
  }

  /** `mockGoals.map(...)`: the rows the card renders. */
  function Card(): (views: seq<GoalView>)
    ensures |views| == |MockGoals|
    ensures forall i :: 0 <= i < |views| ==> views[i] == View(MockGoals[i])
  {
    seq(|MockGoals|, i requires 0 <= i < |MockGoals| => View(MockGoals[i]))
  }

  /** Reaching the target exactly gives 100 and completes the goal; nothing
      done gives 0 and does not. */
  lemma ProgressEndpoints(target: int)
    requires target > 0
    ensures Progress(target, target) == 100 && IsComplete(target, target)
    ensures Progress(0, target) == 0 && !IsComplete(0, target)
  {
    var t := target;
    assert (200 * t + t) / (2 * t) == 100 by {
      assert 200 * t + t == 2 * t * 100 + t;
    }
  }

  /** There is no clamp: going past the target goes past 100. */
  lemma ProgressIsNotClamped()
    ensures Progress(20, 14) == 143 && IsComplete(20, 14)
  {
  }

  /** For a fixed target, more done never shows less progress. */
  lemma ProgressMonotone(c1: int, c2: int, target: int)
    requires target > 0 && c1 <= c2
    ensures Progress(c1, target) <= Progress(c2, target)
  {
    var p1, p2 := Progress(c1, target), Progress(c2, target);
    assert 2 * target * p1 < 2 * target * (p2 + 1);
    ScaledLess(2 * target, p1, p2 + 1);
  }

  lemma ScaledLess(k: int, a: int, b: int)
    requires k > 0 && k * a < k * b
    ensures a < b
  {
    assert k * (b - a) == k * b - k * a > 0;
  }

  /** Completion is decided on the counts, not on the rounded percentage. */
  lemma CompletionIsNotRounded()
    ensures Progress(199, 200) == 100 && !IsComplete(199, 200)
  {
  }

  /** What the card shows: 67, 86 and 71 percent, no goal complete. */
  lemma CardContents()
    ensures Card() == [GoalView("1", 67, false), GoalView("2", 86, false), GoalView("3", 71, false)]
  {
    assert Progress(2, 3) == 67;
    assert Progress(12, 14) == 86;
    assert Progress(5, 7) == 71;
  }
}

/** The dashboard page's own state: the three loaded histories, a range and
    a page per history, the weekly targets and the reset flag. */
module Dashboard {
  import opened Common
  import opened Activity

  /** `Number(x)` of a parsed JSON field: `NaN` for anything non-numeric or
      missing, otherwise a finite value. */
  datatype Number = NaN | Finite(x: real)

  /** The three fields read from a parsed targets object. */
  datatype TargetFields = TargetFields(workout: Number, meals: Number, mood: Number)

  datatype Targets = Targets(workout: real, meals: real, mood: real)

  const DefaultTargets := Targets(3.0, 14.0, 7.0)

  /** `Number(x) || d`: `NaN` and zero are falsy and give the default. */
  function OrDefault(n: Number, d: real): real {
    if n.NaN? || n.x == 0.0 then d else n.x
  }

  /** Reading saved targets: a falsy stored string or a failed parse (which
      the source catches and logs) keeps the current targets; otherwise each
      field falls back to its own default. */
  function LoadTargets(current: Targets, stored: Option<string>, parse: string -> Option<TargetFields>): (t: Targets)
    ensures !Truthy(stored) ==> t == current
    ensures Truthy(stored) && parse(stored.value).None? ==> t == current
  {
    if !Truthy(stored) then current
    else match parse(stored.value)
      case None => current
      case Some(f) => Targets(OrDefault(f.workout, 3.0), OrDefault(f.meals, 14.0), OrDefault(f.mood, 7.0))
  }

  /** Each parsed field decides its own target alone: missing, non-numeric
      and zero give 3, 14 and 7; any other value, negative ones included, is
      kept. */
  lemma TargetsFieldwise(current: Targets, s: string, parse: string -> Option<TargetFields>)
    requires s != "" && parse(s).Some?
    ensures var f := parse(s).value; var t := LoadTargets(current, Some(s), parse);
            && (t.workout == 3.0 <==> f.workout.NaN? || f.workout.x in {0.0, 3.0})
            && (t.meals == 14.0 <==> f.meals.NaN? || f.meals.x in {0.0, 14.0})
            && (t.mood == 7.0 <==> f.mood.NaN? || f.mood.x in {0.0, 7.0})
            && (f.workout.Finite? && f.workout.x != 0.0 ==> t.workout == f.workout.x)
            && (f.meals.Finite? && f.meals.x != 0.0 ==> t.meals == f.meals.x)
            && (f.mood.Finite? && f.mood.x != 0.0 ==> t.mood == f.mood.x)
  {
  }

  /** The time filter of each history. */
  datatype Range = Today | SevenDays | ThirtyDays | All

  /** The instants `fromDateFor` derives from the clock: local midnight
      today, and now minus 7 and minus 30 calendar days. */
  datatype Clock = Clock(startOfToday: int, sevenDaysAgo: int, thirtyDaysAgo: int)

  /** `fromDateFor`: the lower bound of the query, none for "all". */
  function FromDateFor(r: Range, clock: Clock): (from: Option<int>)
    ensures from.None? <==> r == All
  {
    match r
    case Today => Some(clock.startOfToday)
    case SevenDays => Some(clock.sevenDaysAgo)
    case ThirtyDays => Some(clock.thirtyDaysAgo)
    case All => None
  }

  /** Rows per page. */
  const Limit := 10

  /** The inclusive offsets `range((page - 1) * limit, page * limit - 1)`. */
  datatype Window = Window(first: int, last: int)

  function PageWindow(page: int): (w: Window)
    ensures w.last - w.first + 1 == Limit
    ensures page >= 1 ==> w.first >= 0
  {
    Window((page - 1) * Limit, page * Limit - 1)
  }

  /** Consecutive pages are disjoint and leave no gap. */
  lemma PagesAreContiguous(page: int)
    ensures PageWindow(page + 1).first == PageWindow(page).last + 1
  {
  }

  /** Page p covers exactly the offsets from 10(p-1) to 10p-1, so each
      offset lies on exactly one page. */
  lemma OffsetOnOnePage(offset: nat, page: int)
    ensures PageWindow(page).first <= offset <= PageWindow(page).last <==> page == offset / Limit + 1
  {
    var q := offset / Limit;
    assert q * Limit <= offset < (q + 1) * Limit;
    if page <= q {
      assert page * Limit <= q * Limit;
    } else if page >= q + 2 {
      assert (page - 1) * Limit >= (q + 1) * Limit;
    }
  }

  /** "Anterior": never below page 1. */
  function PreviousPage(page: int): (p: int)
    ensures p >= 1
    ensures page > 1 ==> p == page - 1
    ensures page <= 1 ==> p == 1
  {
    if page - 1 > 1 then page - 1 else 1
  }

  /** A history's filter and page. */
  datatype Pager = Pager(range: Range, page: int)

  datatype History = Meals | Exercises | Moods

  /** What the reset button reports. */
  datatype ResetOutcome = NeedsOnboarding | Cleared | ResetFailed

  class Dashboard {
    var coupleId: Option<string>
    var meals: seq<Meal>
    var exercises: seq<Exercise>
    var moods: seq<Mood>
    var mealPager: Pager
    var exercisePager: Pager
    var moodPager: Pager
    var targets: Targets
    var resetting: bool

    /** Every page counter is at least 1. */
    predicate Valid()
      reads this
    {
      PagerOf(Meals).page >= 1 && PagerOf(Exercises).page >= 1 && PagerOf(Moods).page >= 1
    }

    function PagerOf(h: History): Pager
      reads this
    {
      match h
      case Meals => mealPager
      case Exercises => exercisePager
      case Moods => moodPager
    }

    /** The query the history's effect sends: the lower bound of this
        history's own range (none exactly for "all") and the offsets of
        exactly the rows that belong on this history's own page. */
    function QueryOf(h: History, clock: Clock): (q: (Option<int>, Window))
      reads this
      ensures q.0 == FromDateFor(PagerOf(h).range, clock)
      ensures q.0.None? <==> PagerOf(h).range == All
      ensures forall offset: nat :: q.1.first <= offset <= q.1.last <==> PagerOf(h).page == offset / Limit + 1
      ensures Valid() ==> q.1.first >= 0
    {
      var page := PagerOf(h).page;
      assert forall offset: nat :: PageWindow(page).first <= offset <= PageWindow(page).last
                                   <==> page == offset / Limit + 1 by {
        forall offset: nat {
          OffsetOnOnePage(offset, page);
        }
      }
      (FromDateFor(PagerOf(h).range, clock), PageWindow(page))
    }

    /** The initial state: no couple yet, empty histories, "today" on page
        1 everywhere and the default targets. */
    constructor()
      ensures Valid()
      ensures coupleId.None? && meals == [] && exercises == [] && moods == []
      ensures mealPager == exercisePager == moodPager == Pager(Today, 1)
      ensures targets == DefaultTargets && !resetting
    {
      coupleId := None;
      meals, exercises, moods := [], [], [];
      mealPager, exercisePager, moodPager := Pager(Today, 1), Pager(Today, 1), Pager(Today, 1);
      targets := DefaultTargets;
      resetting := false;
    }

    /** Sets one history's pager, leaving the others alone. */
    method SetPager(h: History, p: Pager)
      modifies this
      ensures PagerOf(h) == p
      ensures forall g :: g != h ==> PagerOf(g) == old(PagerOf(g))
      ensures coupleId == old(coupleId) && meals == old(meals) && exercises == old(exercises)
      ensures moods == old(moods) && targets == old(targets) && resetting == old(resetting)
    {
      match h {
        case Meals => mealPager := p;
        case Exercises => exercisePager := p;
        case Moods => moodPager := p;
      }
    }

    /** A range button: the range changes and the page goes back to 1. */
    method SelectRange(h: History, r: Range)
      requires Valid()
      modifies this
      ensures Valid()
      ensures PagerOf(h) == Pager(r, 1)
      ensures forall g :: g != h ==> PagerOf(g) == old(PagerOf(g))
      ensures coupleId == old(coupleId) && meals == old(meals) && exercises == old(exercises)
      ensures moods == old(moods) && targets == old(targets) && resetting == old(resetting)
    {
      SetPager(h, Pager(r, 1));
    }

    /** "Anterior". */
    method Previous(h: History)
      requires Valid()
      modifies this
      ensures Valid()
      ensures PagerOf(h) == Pager(old(PagerOf(h).range), PreviousPage(old(PagerOf(h).page)))
      ensures forall g :: g != h ==> PagerOf(g) == old(PagerOf(g))
      ensures coupleId == old(coupleId) && meals == old(meals) && exercises == old(exercises)
      ensures moods == old(moods) && targets == old(targets) && resetting == old(resetting)
    {
      var p := PagerOf(h);
      SetPager(h, Pager(p.range, PreviousPage(p.page)));
    }

    /** "Próxima": unbounded, even past the last row. */
    method Next(h: History)
      requires Valid()
      modifies this
      ensures Valid()
      ensures PagerOf(h) == Pager(old(PagerOf(h).range), old(PagerOf(h).page) + 1)
      ensures forall g :: g != h ==> PagerOf(g) == old(PagerOf(g))
      ensures coupleId == old(coupleId) && meals == old(meals) && exercises == old(exercises)
      ensures moods == old(moods) && targets == old(targets) && resetting == old(resetting)
    {
      var p := PagerOf(h);
      SetPager(h, Pager(p.range, p.page + 1));
    }

    /** "Restaurar padrão". */
    method RestoreDefaults()
      modifies this
      ensures targets == DefaultTargets
      ensures coupleId == old(coupleId) && meals == old(meals) && exercises == old(exercises)
      ensures moods == old(moods) && resetting == old(resetting)
      ensures mealPager == old(mealPager) && exercisePager == old(exercisePager) && moodPager == old(moodPager)
    {
      targets := DefaultTargets;
    }

    /** Applies saved targets (local storage or the settings row). */
    method ApplySavedTargets(stored: Option<string>, parse: string -> Option<TargetFields>)
      modifies this
      ensures targets == LoadTargets(old(targets), stored, parse)
      ensures coupleId == old(coupleId) && meals == old(meals) && exercises == old(exercises)
      ensures moods == old(moods) && resetting == old(resetting)
      ensures mealPager == old(mealPager) && exercisePager == old(exercisePager) && moodPager == old(moodPager)
    {
      targets := LoadTargets(targets, stored, parse);
    }

    /** "Resetar dados": without a couple nothing happens; otherwise the four
        deletions run and `deleted` is whether the awaited `Promise.all`
        resolved rather than rejected. The results it resolves to are not
        inspected, so a deletion the backend refuses in-band still counts as
        resolved. The histories are emptied exactly when it resolved, and
        `resetting` ends false either way. Pages, ranges and targets are
        untouched. */
    method Reset(deleted: bool) returns (outcome: ResetOutcome)
      requires Valid()
      modifies this
      ensures Valid()
      ensures old(coupleId).None? ==>
                outcome == NeedsOnboarding && resetting == old(resetting)
                && meals == old(meals) && exercises == old(exercises) && moods == old(moods)
      ensures old(coupleId).Some? ==> !resetting
      ensures old(coupleId).Some? && deleted ==> outcome == Cleared && meals == [] && exercises == [] && moods == []
      ensures old(coupleId).Some? && !deleted ==>
                outcome == ResetFailed
                && meals == old(meals) && exercises == old(exercises) && moods == old(moods)
      ensures coupleId == old(coupleId) && targets == old(targets)
      ensures mealPager == old(mealPager) && exercisePager == old(exercisePager) && moodPager == old(moodPager)
    {
      if coupleId.None? {
        return NeedsOnboarding;
      }
      resetting := true;
      if deleted {
        meals, exercises, moods := [], [], [];
        outcome := Cleared;
      } else {
        outcome := ResetFailed;
      }
      resetting := false;
    }
  }
}

/** The week strip of the progress card: seven Monday-first columns, the
    one for today highlighted, the ones after it faded with muted bars. */
module WeeklyProgress {

  /** Column labels, Monday first. */
  const WeekDays := ["Seg", "Ter", "Qua", "Qui", "Sex", "S\U{E1}b", "Dom"]

  /** `getDay()` counts from Sunday (0) to Saturday (6); the columns count
      from Monday (0) to Sunday (6). */
  function TodayIndex(weekday: int): (i: int)
    requires 0 <= weekday <= 6
    ensures 0 <= i <= 6
    ensures weekday == 0 ==> i == 6
    ensures weekday != 0 ==> i == weekday - 1
  {
    if weekday == 0 then 6 else weekday - 1
  }

  /** The `getDay()` value a column stands for. */
  function WeekdayOf(column: int): (d: int)
    requires 0 <= column <= 6
    ensures 0 <= d <= 6
  {
    if column == 6 then 0 else column + 1
  }

  /** The remapping is a bijection between the two numberings. */
  lemma RemapIsBijection(weekday: int, column: int)
    requires 0 <= weekday <= 6 && 0 <= column <= 6
    ensures WeekdayOf(TodayIndex(weekday)) == weekday
    ensures TodayIndex(WeekdayOf(column)) == column
    ensures TodayIndex(weekday) == column <==> weekday == WeekdayOf(column)
  {
  }

  /** One day of the (randomly generated) week data. */
  datatype DayData = DayData(youExercised: bool, partnerExercised: bool, together: bool)

  datatype Bar = Muted | Energy | Calm

  datatype Style = Highlighted | Faded | Plain

  /** What a column shows. */
  datatype Column = Column(isToday: bool, isFuture: bool, style: Style, youBar: Bar, partnerBar: Bar, marker: bool)

  /** One column: highlighted exactly when it is today, faded and muted
      exactly when it comes after today; up to today a bar is coloured
      exactly when that partner exercised, and the together marker shows
      exactly on such days spent together. */
  function ColumnView(index: int, todayIndex: int, d: DayData): (c: Column)
    ensures c.isToday <==> index == todayIndex
    ensures c.isFuture <==> index > todayIndex
    ensures c.style == Highlighted <==> c.isToday
    ensures c.style == Faded <==> c.isFuture
    ensures c.isFuture ==> c.youBar == Muted && c.partnerBar == Muted && !c.marker
    ensures !c.isFuture ==> (c.youBar == Energy <==> d.youExercised) && (c.partnerBar == Calm <==> d.partnerExercised)
    ensures c.youBar != Calm && c.partnerBar != Energy
    ensures c.marker <==> !c.isFuture && d.together
  {
    var isToday := index == todayIndex;
    var isFuture := index > todayIndex;
    Column(
      isToday,
      isFuture,
      if isToday then Highlighted else if isFuture then Faded else Plain,
      if isFuture then Muted else if d.youExercised then Energy else Muted,
      if isFuture then Muted else if d.partnerExercised then Calm else Muted,
      !isFuture && d.together)
  }

  /** The seven columns for a day of the week: exactly one column, the
      remapped today, is highlighted; the future is exactly the columns
      after it, with muted bars and no marker whatever the data; up to today
      each column shows that day's data. */
  function Week(weekday: int, data: seq<DayData>): (cols: seq<Column>)
    requires 0 <= weekday <= 6 && |data| == 7
    ensures |cols| == 7
    ensures forall i :: 0 <= i < 7 ==> (cols[i].isToday <==> i == TodayIndex(weekday))
    ensures forall i :: 0 <= i < 7 ==> (cols[i].style == Highlighted <==> i == TodayIndex(weekday))
    ensures forall i :: 0 <= i < 7 ==> (cols[i].isFuture <==> i > TodayIndex(weekday))
    ensures forall i :: 0 <= i < 7 && cols[i].isFuture ==>
              cols[i].youBar == Muted && cols[i].partnerBar == Muted && !cols[i].marker
    ensures forall i :: 0 <= i < 7 && !cols[i].isFuture ==>
              (cols[i].youBar == Energy <==> data[i].youExercised)
              && (cols[i].partnerBar == Calm <==> data[i].partnerExercised)
    ensures forall i :: 0 <= i < 7 ==> (cols[i].marker <==> !cols[i].isFuture && data[i].together)
  {
    seq(7, i requires 0 <= i < 7 => ColumnView(i, TodayIndex(weekday), data[i]))
  }

  /** The number of future columns among `cols`. */
  function FutureCount(cols: seq<Column>): (n: nat)
    ensures n <= |cols|
    decreases |cols|
  {
    if cols == [] then 0
    else FutureCount(cols[..|cols| - 1]) + (if cols[|cols| - 1].isFuture then 1 else 0)
  }

  /** Among the first `k` columns, those after today are future. */
  lemma {:induction false} FuturePrefix(weekday: int, data: seq<DayData>, k: nat)
    requires 0 <= weekday <= 6 && |data| == 7 && k <= 7
    ensures FutureCount(Week(weekday, data)[..k])
            == if k > TodayIndex(weekday) + 1 then k - 1 - TodayIndex(weekday) else 0
  {
    if k > 0 {
      var cols := Week(weekday, data);
      assert cols[..k][..k - 1] == cols[..k - 1];
      FuturePrefix(weekday, data, k - 1);
    }
  }

  /** Six future columns on a Monday, none on a Sunday: `6 - todayIndex`. */
  lemma FutureColumns(weekday: int, data: seq<DayData>)
    requires 0 <= weekday <= 6 && |data| == 7
    ensures FutureCount(Week(weekday, data)) == 6 - TodayIndex(weekday)
    ensures weekday == 0 ==> FutureCount(Week(weekday, data)) == 0
    ensures weekday == 1 ==> FutureCount(Week(weekday, data)) == 6
  {
    FuturePrefix(weekday, data, 7);
    assert Week(weekday, data)[..7] == Week(weekday, data);
  }
}

/**
 * The two read-only routes: the day view (`GET /day`) and the per-day
 * summary (`GET /summary`), as functions of the store's state. Being
 * functions of a State, neither can change the store.
 */
module Queries {
  import opened Calendar
  import opened HabitStore
  import opened Cardinality

  /**
   * The day view's filter: the habit was created at or before the raw
   * requested instant, and one of its rules names the requested weekday.
   */
  predicate Possible(h: Habit, date: int, weekDay: int) {
    h.createdAt <= date && weekDay in h.weekDays
  }

  /**
   * A row of the `habits` table as the day view returns it: the title and
   * the creation instant, without the weekday rules.
   */
  datatype HabitRow = HabitRow(title: string, createdAt: int)

  /** The day view: the rows of the possible habits by id, and the ids completed that day. */
  datatype DayView = DayView(possibleHabits: map<HabitId, HabitRow>, completedHabits: set<HabitId>)

  /**
   * The day view for the instant `date`. Creation times are compared with
   * `date` itself, while the Day is looked up under the normalised date, so a
   * habit created later on the same calendar day is not yet possible.
   */
  function GetDay(s: State, date: int): (v: DayView)
    ensures forall id | id in v.possibleHabits ::
      id in s.habits && v.possibleHabits[id] == HabitRow(s.habits[id].title, s.habits[id].createdAt)
    ensures forall id | id in s.habits ::
      id in v.possibleHabits <==> s.habits[id].createdAt <= date && WeekDay(date) in s.habits[id].weekDays
    ensures StartOfDay(date) !in s.days ==> v.completedHabits == {}
    ensures StartOfDay(date) in s.days ==>
      forall id :: id in v.completedHabits <==> (s.days[StartOfDay(date)], id) in s.completions
  {
    var parsedDate := StartOfDay(date);
    var weekDay := WeekDay(parsedDate);
    WeekDayOfStartOfDay(date);
    var possible := map id | id in s.habits && Possible(s.habits[id], date, weekDay) ::
      HabitRow(s.habits[id].title, s.habits[id].createdAt);
    var completed := if parsedDate in s.days then CompletedOn(s, s.days[parsedDate]) else {};
    DayView(possible, completed)
  }

  /** Under the invariant, the day view only lists completions of existing habits. */
  lemma CompletedHabitsExist(s: State, date: int)
    requires Valid(s)
    ensures GetDay(s, date).completedHabits <= s.habits.Keys
  {
    if StartOfDay(date) in s.days {
      CompletedAreHabits(s, s.days[StartOfDay(date)]);
    }
  }

  /** Under the invariant, the day view never lists more completed habits than there are habits. */
  lemma CompletedCountBound(s: State, date: int)
    requires Valid(s)
    ensures |GetDay(s, date).completedHabits| <= |s.habits|
  {
    CompletedHabitsExist(s, date);
    SubsetSize(GetDay(s, date).completedHabits, s.habits.Keys);
    assert |s.habits| == |s.habits.Keys|;
  }

  /**
   * Two instants of the same calendar day see the same completions, and the
   * later instant sees every habit the earlier one sees.
   */
  lemma SameDayViews(s: State, t1: int, t2: int)
    requires StartOfDay(t1) == StartOfDay(t2)
    requires t1 <= t2
    ensures GetDay(s, t1).completedHabits == GetDay(s, t2).completedHabits
    ensures GetDay(s, t1).possibleHabits.Keys <= GetDay(s, t2).possibleHabits.Keys
  {
    SameDayIff(t1, t2);
  }

  /** One row of the summary. */
  datatype SummaryRow = SummaryRow(id: DayId, date: int, completed: int, amount: int)

  /**
   * The rule rows the summary's `amount` subquery counts for a Day stored at
   * `date`: a (habit, rule index) pair for every rule of a habit created at
   * or before `date` whose weekday is that of `date`. A habit with two equal
   * rules contributes two rows.
   */
  function RuleRows(s: State, date: int): set<(HabitId, int)> {
    set id, i | id in s.habits && 0 <= i < |s.habits[id].weekDays|
                && s.habits[id].weekDays[i] == WeekDay(date) && s.habits[id].createdAt <= date :: (id, i)
  }

  /** The summary row of the Day stored at `date`. */
  function RowOf(s: State, date: int): SummaryRow
    requires date in s.days
  {
    SummaryRow(s.days[date], date, |CompletedOn(s, s.days[date])|, |RuleRows(s, date)|)
  }

  /** The summary: one row for every Day, in no particular order. */
  function Summary(s: State): (rows: set<SummaryRow>)
    ensures forall date | date in s.days :: RowOf(s, date) in rows
    ensures forall r | r in rows :: r.date in s.days && r == RowOf(s, r.date)
    ensures |rows| == |s.days|
  {
    var rows := set date | date in s.days :: RowOf(s, date);
    var byDate := (r: SummaryRow) => r.date;
    forall date | date in s.days
      ensures date in Image(rows, byDate)
    {
      assert byDate(RowOf(s, date)) == date;
    }
    assert Image(rows, byDate) == s.days.Keys;
    InjectiveImageSize(rows, byDate);
    rows
  }

  /** No habit lists the same weekday twice. */
  predicate NoDuplicateRules(s: State) {
    forall id | id in s.habits ::
      forall i, j | 0 <= i < j < |s.habits[id].weekDays| :: s.habits[id].weekDays[i] != s.habits[id].weekDays[j]
  }

  /** The habit a rule row belongs to. */
  function Owner(row: (HabitId, int)): HabitId {
    row.0
  }

  /** The habits the rule rows of `date` belong to are exactly the habits the day view at `date` finds possible. */
  lemma RuleRowHabits(s: State, date: int)
    ensures Image(RuleRows(s, date), Owner) == GetDay(s, date).possibleHabits.Keys
  {
    var rows := RuleRows(s, date);
    forall id | id in GetDay(s, date).possibleHabits
      ensures id in Image(rows, Owner)
    {
      var ws := s.habits[id].weekDays;
      var i :| 0 <= i < |ws| && ws[i] == WeekDay(date);
      assert (id, i) in rows;
    }
  }

  /** Without repeated rules, a habit has at most one rule row per Day. */
  lemma RuleRowsInjective(s: State, date: int)
    requires NoDuplicateRules(s)
    ensures InjectiveOn(RuleRows(s, date), Owner)
  {
    var rows := RuleRows(s, date);
    forall p, q | p in rows && q in rows && Owner(p) == Owner(q)
      ensures p == q
    {
      var ws := s.habits[p.0].weekDays;
      assert ws[p.1] == ws[q.1];
    }
  }

  /**
   * The summary's `amount` for a Day is at least the number of habits the
   * day view at the Day's date finds possible, and equal to it when no habit
   * repeats a weekday rule.
   */
  lemma AmountCountsPossibleHabits(s: State, date: int)
    ensures |RuleRows(s, date)| >= |GetDay(s, date).possibleHabits|
    ensures NoDuplicateRules(s) ==> |RuleRows(s, date)| == |GetDay(s, date).possibleHabits|
  {
    var possible := GetDay(s, date).possibleHabits;
    RuleRowHabits(s, date);
    assert |possible| == |possible.Keys|;
    ImageSizeBound(RuleRows(s, date), Owner);
    if NoDuplicateRules(s) {
      RuleRowsInjective(s, date);
      InjectiveImageSize(RuleRows(s, date), Owner);
    }
  }

  /**
   * A summary row agrees with the day view queried at the Day's own date:
   * `completed` is the number of completed habits it lists, and `amount` is
   * at least the number of possible habits it lists, and equal to it when no
   * habit repeats a weekday rule. Since completions name existing habits,
   * `completed` never exceeds the number of habits.
   */
  lemma SummaryMatchesDayView(s: State, r: SummaryRow)
    requires Valid(s)
    requires r in Summary(s)
    ensures r.completed == |GetDay(s, r.date).completedHabits|
    ensures r.completed <= |s.habits|
    ensures r.amount >= |GetDay(s, r.date).possibleHabits|
    ensures NoDuplicateRules(s) ==> r.amount == |GetDay(s, r.date).possibleHabits|
  {
    assert StartOfDay(r.date) == r.date;
    CompletedCountBound(s, r.date);
    AmountCountsPossibleHabits(s, r.date);
  }
}

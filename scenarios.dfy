/**
 * Concrete runs of the routes on small stores: the walk-through of one
 * habit being created and toggled, the fixture the seed script loads, and
 * the situations in which the summary and the day view disagree.
 *
 * Instants are UTC midnights (plus the stated hours), in milliseconds since
 * 1970-01-01.
 */
module Scenarios {
  import opened Calendar
  import opened HabitStore
  import opened Queries
  import opened Routes

  const HOUR: int := 3_600_000

  const DEC_31_2022: int := 1_672_444_800_000  // a Saturday
  const JAN_02_2023: int := 1_672_617_600_000  // a Monday
  const JAN_03_2023: int := 1_672_704_000_000  // a Tuesday
  const JAN_04_2023: int := 1_672_790_400_000  // a Wednesday
  const JAN_06_2023: int := 1_672_963_200_000  // a Friday
  const JAN_08_2023: int := 1_673_136_000_000  // a Sunday

  /** Every instant of Monday 2023-01-02 normalises to its midnight and falls on weekday 1. */
  lemma OnMonday(t: int)
    requires JAN_02_2023 <= t < JAN_02_2023 + MS_PER_DAY
    ensures StartOfDay(t) == JAN_02_2023 && WeekDay(t) == 1
  {
    assert DayNumber(t) == DayNumber(JAN_02_2023);
  }

  /**
   * A habit for Monday to Wednesday created on 2022-12-31 is possible on
   * Monday 2023-01-02 with nothing completed; toggling it that Monday
   * completes it, and toggling it again later that Monday leaves the day with
   * no completion. This holds whatever UUID the habit receives and whatever
   * keys the store offers for the Day.
   */
  lemma DrinkWaterScenario(water: HabitId, monday: DayId, unused: DayId)
    requires ValidId(water)
    ensures var created := CreateHabitStep(EMPTY, "Drink water", [1, 2, 3], DEC_31_2022, water);
      && created.outcome == Ok
      && water in GetDay(created.next, JAN_02_2023).possibleHabits
      && GetDay(created.next, JAN_02_2023).completedHabits == {}
    ensures var created := CreateHabitStep(EMPTY, "Drink water", [1, 2, 3], DEC_31_2022, water);
      var on := ToggleStep(created.next, water, JAN_02_2023 + HOUR, monday);
      var off := ToggleStep(on.next, water, JAN_02_2023 + 2 * HOUR, unused);
      && on.outcome == Ok && GetDay(on.next, JAN_02_2023).completedHabits == {water}
      && off.outcome == Ok && GetDay(off.next, JAN_02_2023).completedHabits == {}
  {
    var t1, t2 := JAN_02_2023 + HOUR, JAN_02_2023 + 2 * HOUR;
    OnMonday(JAN_02_2023);
    OnMonday(t1);
    OnMonday(t2);
    var created := CreateHabitStep(EMPTY, "Drink water", [1, 2, 3], DEC_31_2022, water);
    EmptyValid();
    CreateHabitPreservesValid(EMPTY, "Drink water", [1, 2, 3], DEC_31_2022, water);
    CreatedHabitIsPossible(EMPTY, "Drink water", [1, 2, 3], DEC_31_2022, water, JAN_02_2023);
    var s1 := created.next;
    var on := ToggleStep(s1, water, t1, monday);
    ToggleFlipsToday(s1, water, t1, monday);
    TogglePreservesValid(s1, water, t1, monday);
    SameDayViews(s1, JAN_02_2023, t1);
    SameDayViews(on.next, JAN_02_2023, t1);
    var s2 := on.next;
    var off := ToggleStep(s2, water, t2, unused);
    assert StartOfDay(t2) in s2.days;
    ToggleFlipsToday(s2, water, t2, unused);
    SameDayViews(s2, t1, t2);
    SameDayViews(off.next, JAN_02_2023, t2);
  }

  const WATER: HabitId := "846d0342-8efe-11ee-b9d1-0242ac120002"
  const EXERCISE: HabitId := "8bf43496-8efe-11ee-b9d1-0242ac120002"
  const SLEEP: HabitId := "9184e766-8efe-11ee-b9d1-0242ac120002"

  const MONDAY_ID: DayId := "day-monday"
  const WEDNESDAY_ID: DayId := "day-wednesday"
  const FRIDAY_ID: DayId := "day-friday"

  /**
   * The seed fixture: three habits, a Monday and a Wednesday on which the
   * scheduled habits are all completed, and a Friday on which the water
   * habit (not scheduled on Fridays) is completed.
   */
  const SEED: State := State(
    map[
      WATER := Habit("Beber 2L água", DEC_31_2022, [1, 2, 3]),
      EXERCISE := Habit("Exercitar", JAN_03_2023, [3, 4, 5]),
      SLEEP := Habit("Dormir 8h", JAN_08_2023, [1, 2, 3, 4, 5])],
    map[JAN_02_2023 := MONDAY_ID, JAN_06_2023 := FRIDAY_ID, JAN_04_2023 := WEDNESDAY_ID],
    {(MONDAY_ID, WATER), (FRIDAY_ID, WATER), (WEDNESDAY_ID, WATER), (WEDNESDAY_ID, EXERCISE)})

  lemma SeedValid()
    ensures Valid(SEED)
  {
    assert StartOfDay(JAN_02_2023) == JAN_02_2023;
    assert StartOfDay(JAN_04_2023) == JAN_04_2023;
    assert StartOfDay(JAN_06_2023) == JAN_06_2023;
    assert SEED.days[JAN_02_2023] == MONDAY_ID;
    assert SEED.days[JAN_04_2023] == WEDNESDAY_ID;
    assert SEED.days[JAN_06_2023] == FRIDAY_ID;
  }

  lemma SeedMonday()
    ensures RowOf(SEED, JAN_02_2023) == SummaryRow(MONDAY_ID, JAN_02_2023, 1, 1)
  {
    OnMonday(JAN_02_2023);
    assert CompletedOn(SEED, MONDAY_ID) == {WATER};
    assert RuleRows(SEED, JAN_02_2023) == {(WATER, 0)} by {
      assert (WATER, 0) in RuleRows(SEED, JAN_02_2023);
    }
  }

  lemma SeedWednesday()
    ensures RowOf(SEED, JAN_04_2023) == SummaryRow(WEDNESDAY_ID, JAN_04_2023, 2, 2)
  {
    NextDayWeekDay(JAN_02_2023);
    NextDayWeekDay(JAN_03_2023);
    assert WeekDay(JAN_04_2023) == 3;
    assert CompletedOn(SEED, WEDNESDAY_ID) == {WATER, EXERCISE};
    assert RuleRows(SEED, JAN_04_2023) == {(WATER, 2), (EXERCISE, 0)} by {
      assert (WATER, 2) in RuleRows(SEED, JAN_04_2023);
      assert (EXERCISE, 0) in RuleRows(SEED, JAN_04_2023);
    }
  }

  lemma SeedFriday()
    ensures RowOf(SEED, JAN_06_2023) == SummaryRow(FRIDAY_ID, JAN_06_2023, 1, 1)
  {
    NextDayWeekDay(JAN_04_2023);
    NextDayWeekDay(JAN_04_2023 + MS_PER_DAY);
    assert WeekDay(JAN_06_2023) == 5;
    assert CompletedOn(SEED, FRIDAY_ID) == {WATER};
    assert RuleRows(SEED, JAN_06_2023) == {(EXERCISE, 2)} by {
      assert (EXERCISE, 2) in RuleRows(SEED, JAN_06_2023);
    }
  }

  /**
   * The seeded summary: Monday 1 of 1, Wednesday 2 of 2, Friday 1 of 1. On
   * Friday the completed habit (water, Monday to Wednesday) is not the one
   * scheduled (exercise), yet both counts are 1.
   */
  lemma SeedSummary()
    ensures Summary(SEED) == {
      SummaryRow(MONDAY_ID, JAN_02_2023, 1, 1),
      SummaryRow(WEDNESDAY_ID, JAN_04_2023, 2, 2),
      SummaryRow(FRIDAY_ID, JAN_06_2023, 1, 1)}
  {
    SeedMonday();
    SeedWednesday();
    SeedFriday();
    assert SEED.days.Keys == {JAN_02_2023, JAN_04_2023, JAN_06_2023};
  }

  /** A store with one habit that lists Monday twice, and a Day on a Monday. */
  const DOUBLE_MONDAY: State := State(
    map[WATER := Habit("Stretch", DEC_31_2022, [1, 1])],
    map[JAN_02_2023 := MONDAY_ID],
    {})

  /**
   * The summary counts rule rows, not habits: one habit listing Monday twice
   * gives a Monday an `amount` of 2, while the day view of that Monday lists
   * one possible habit.
   */
  lemma DuplicateRulesCountTwice()
    ensures RowOf(DOUBLE_MONDAY, JAN_02_2023) == SummaryRow(MONDAY_ID, JAN_02_2023, 0, 2)
    ensures Summary(DOUBLE_MONDAY) == {SummaryRow(MONDAY_ID, JAN_02_2023, 0, 2)}
    ensures |GetDay(DOUBLE_MONDAY, JAN_02_2023).possibleHabits| == 1
  {
    DoubleMondayRow();
    DoubleMondayView();
    assert DOUBLE_MONDAY.days.Keys == {JAN_02_2023};
  }

  lemma DoubleMondayRow()
    ensures RowOf(DOUBLE_MONDAY, JAN_02_2023) == SummaryRow(MONDAY_ID, JAN_02_2023, 0, 2)
  {
    OnMonday(JAN_02_2023);
    assert RuleRows(DOUBLE_MONDAY, JAN_02_2023) == {(WATER, 0), (WATER, 1)} by {
      assert (WATER, 0) in RuleRows(DOUBLE_MONDAY, JAN_02_2023);
      assert (WATER, 1) in RuleRows(DOUBLE_MONDAY, JAN_02_2023);
    }
    assert CompletedOn(DOUBLE_MONDAY, MONDAY_ID) == {};
  }

  lemma DoubleMondayView()
    ensures |GetDay(DOUBLE_MONDAY, JAN_02_2023).possibleHabits| == 1
  {
    OnMonday(JAN_02_2023);
    var possible := GetDay(DOUBLE_MONDAY, JAN_02_2023).possibleHabits;
    assert possible.Keys == {WATER};
    assert |possible| == |possible.Keys|;
  }

  /**
   * A habit created at noon on a Monday is missing from the day view asked
   * for at 09:00 that Monday but present at 13:00, although both views look
   * up the same Day.
   */
  lemma SameDayAsymmetry(id: HabitId)
    ensures var s := CreateHabitStep(EMPTY, "Read", [1], JAN_02_2023 + 12 * HOUR, id).next;
      && id !in GetDay(s, JAN_02_2023 + 9 * HOUR).possibleHabits
      && id in GetDay(s, JAN_02_2023 + 13 * HOUR).possibleHabits
      && GetDay(s, JAN_02_2023 + 9 * HOUR).completedHabits == GetDay(s, JAN_02_2023 + 13 * HOUR).completedHabits
  {
    OnMonday(JAN_02_2023 + 9 * HOUR);
    OnMonday(JAN_02_2023 + 13 * HOUR);
    CreatedHabitIsPossible(EMPTY, "Read", [1], JAN_02_2023 + 12 * HOUR, id, JAN_02_2023 + 9 * HOUR);
    CreatedHabitIsPossible(EMPTY, "Read", [1], JAN_02_2023 + 12 * HOUR, id, JAN_02_2023 + 13 * HOUR);
  }

  /** A habit created at noon on a Monday and completed that afternoon. */
  const NOON_HABIT: State := State(
    map[WATER := Habit("Read", JAN_02_2023 + 12 * HOUR, [1])],
    map[JAN_02_2023 := MONDAY_ID],
    {(MONDAY_ID, WATER)})

  /**
   * The summary compares creation times with the Day's midnight: the habit
   * created and completed on Monday afternoon is possible in that
   * afternoon's day view, but the Monday summary row reports 1 completed of
   * an `amount` of 0.
   */
  lemma CompletedButNotCounted()
    ensures WATER in GetDay(NOON_HABIT, JAN_02_2023 + 13 * HOUR).possibleHabits
    ensures WATER in GetDay(NOON_HABIT, JAN_02_2023 + 13 * HOUR).completedHabits
    ensures Summary(NOON_HABIT) == {SummaryRow(MONDAY_ID, JAN_02_2023, 1, 0)}
  {
    var s := NOON_HABIT;
    OnMonday(JAN_02_2023);
    OnMonday(JAN_02_2023 + 13 * HOUR);
    assert CompletedOn(s, MONDAY_ID) == {WATER};
    assert RuleRows(s, JAN_02_2023) == {};
  }

  /**
   * A client of the mutable store: two toggles of the same habit at the same
   * instant leave the completions as they were.
   */
  method ToggleTwice(store: Store, id: string, now: int, newDayId1: DayId, newDayId2: DayId)
    returns (first: Outcome, second: Outcome)
    requires Valid(store.Snapshot())
    modifies store
    ensures first == Ok ==> second == Ok && store.completions == old(store.completions)
    ensures store.habits == old(store.habits)
    ensures Valid(store.Snapshot())
  {
    ghost var before := store.Snapshot();
    first := store.ToggleToday(id, now, newDayId1);
    second := store.ToggleToday(id, now, newDayId2);
    if first == Ok {
      ToggleTwiceRestores(before, id, now, newDayId1, newDayId2);
    }
  }
}

/**
 * The two routes that change the store: habit creation (`POST /habits`) and
 * the completion toggle (`PATCH /habits/:id/toggle`). Each is given as a
 * transition function on the store's State, whose properties are proved
 * here, and as a method of the mutable Store that is proved to perform
 * exactly that transition.
 *
 * The server clock and the store's generator of fresh primary keys are
 * parameters: `now` is the instant the request is handled, and `newId` /
 * `newDayId` is the key the store would assign to a row it inserts.
 */
module Routes {
  import opened Calendar
  import opened HabitStore
  import opened Queries

  /** The result of a request and the store it leaves behind. */
  datatype Transition = Transition(outcome: Outcome, next: State)

  /**
   * `POST /habits`: reject the body unless every weekday lies in 0..6, then
   * insert a habit created at `now` with one rule per listed weekday.
   */
  function CreateHabitStep(s: State, title: string, weekDays: seq<int>, now: int, newId: HabitId): (t: Transition)
    ensures t.outcome == Err(Validation) <==> exists i | 0 <= i < |weekDays| :: weekDays[i] < 0 || 6 < weekDays[i]
    ensures t.outcome == Ok <==> ValidWeekDays(weekDays) && newId !in s.habits
    ensures t.outcome.Err? ==> t.next == s
    ensures t.outcome == Ok ==>
      && t.next.habits.Keys == s.habits.Keys + {newId}
      && |t.next.habits| == |s.habits| + 1
      && t.next.habits[newId].createdAt == now
      && t.next.habits[newId].title == title
      && t.next.habits[newId].weekDays == weekDays
      && (forall id | id in s.habits :: t.next.habits[id] == s.habits[id])
      && t.next.days == s.days
      && t.next.completions == s.completions
  {
    if !ValidWeekDays(weekDays) then
      Transition(Err(Validation), s)
    else if newId in s.habits then
      Transition(Err(UniqueViolation), s)
    else
      Transition(Ok, s.(habits := s.habits[newId := Habit(title, now, weekDays)]))
  }

  lemma CreateHabitPreservesValid(s: State, title: string, weekDays: seq<int>, now: int, newId: HabitId)
    requires Valid(s)
    ensures Valid(CreateHabitStep(s, title, weekDays, now, newId).next)
  {
  }

  /**
   * Creating a habit whose weekdays are pairwise distinct leaves no habit with
   * a repeated weekday rule, so stores built this way satisfy the hypothesis
   * under which the summary's `amount` equals the day view's count.
   */
  lemma CreateHabitKeepsNoDuplicateRules(s: State, title: string, weekDays: seq<int>, now: int, newId: HabitId)
    requires NoDuplicateRules(s)
    requires forall i, j | 0 <= i < j < |weekDays| :: weekDays[i] != weekDays[j]
    ensures NoDuplicateRules(CreateHabitStep(s, title, weekDays, now, newId).next)
  {
  }

  /**
   * A habit just created at `now` appears in the day view of every later
   * instant whose weekday it lists, and in the day view of no earlier instant.
   */
  lemma CreatedHabitIsPossible(s: State, title: string, weekDays: seq<int>, now: int, newId: HabitId, date: int)
    requires CreateHabitStep(s, title, weekDays, now, newId).outcome == Ok
    ensures var next := CreateHabitStep(s, title, weekDays, now, newId).next;
      newId in GetDay(next, date).possibleHabits <==> now <= date && WeekDay(date) in weekDays
    ensures var next := CreateHabitStep(s, title, weekDays, now, newId).next;
      GetDay(next, date).completedHabits == GetDay(s, date).completedHabits
  {
  }

  /** The key of the completion a toggle at `now` flips, once the Day of `now` exists in `s`. */
  function TodayKey(s: State, id: HabitId, now: int): (DayId, HabitId)
    requires StartOfDay(now) in s.days
  {
    (s.days[StartOfDay(now)], id)
  }

  /**
   * `PATCH /habits/:id/toggle`: reject an id that is not a UUID; find the Day
   * of today or create it; then delete the completion (today, id) if it
   * exists and create it otherwise. Creating it for an unknown habit violates
   * the foreign key, after the Day has already been created.
   */
  function ToggleStep(s: State, id: string, now: int, newDayId: DayId): (t: Transition)
    ensures t.outcome == Err(Validation) <==> !ValidId(id)
    ensures t.outcome == Err(UniqueViolation) <==>
      ValidId(id) && StartOfDay(now) !in s.days && newDayId in s.days.Values
    ensures t.outcome in {Err(Validation), Err(UniqueViolation)} ==> t.next == s
    ensures t.next.habits == s.habits
    ensures t.outcome in {Ok, Err(ForeignKeyViolation)} ==>
      && t.next.days.Keys == s.days.Keys + {StartOfDay(now)}
      && (forall date | date in s.days :: t.next.days[date] == s.days[date])
      && (StartOfDay(now) !in s.days ==> t.next.days[StartOfDay(now)] == newDayId)
    ensures t.outcome == Err(ForeignKeyViolation) ==>
      id !in s.habits && t.next.completions == s.completions
    ensures t.outcome == Ok ==>
      forall p :: p in t.next.completions <==> (p in s.completions <==> p != TodayKey(t.next, id, now))
  {
    if !ValidId(id) then
      Transition(Err(Validation), s)
    else
      var today := StartOfDay(now);
      if today !in s.days && newDayId in s.days.Values then
        Transition(Err(UniqueViolation), s)
      else
        var withDay := if today in s.days then s else s.(days := s.days[today := newDayId]);
        var key := (withDay.days[today], id);
        if key in s.completions then
          Transition(Ok, withDay.(completions := s.completions - {key}))
        else if id !in s.habits then
          Transition(Err(ForeignKeyViolation), withDay)
        else
          Transition(Ok, withDay.(completions := s.completions + {key}))
  }

  /** A toggle keeps the store's invariant, on success and on failure. */
  lemma TogglePreservesValid(s: State, id: string, now: int, newDayId: DayId)
    requires Valid(s)
    ensures Valid(ToggleStep(s, id, now, newDayId).next)
  {
  }

  /**
   * Toggling the same habit twice at the same instant restores the original
   * completions: the second toggle finds the Day the first one used and
   * undoes its flip, whatever key the store would offer for a new Day.
   */
  lemma ToggleTwiceRestores(s: State, id: string, now: int, newDayId1: DayId, newDayId2: DayId)
    requires Valid(s)
    requires ToggleStep(s, id, now, newDayId1).outcome == Ok
    ensures var first := ToggleStep(s, id, now, newDayId1);
      var second := ToggleStep(first.next, id, now, newDayId2);
      && second.outcome == Ok
      && second.next.completions == s.completions
      && second.next.days == first.next.days
      && second.next.habits == s.habits
  {
  }

  /**
   * After a successful toggle the day view of that day lists `id` as
   * completed exactly when it did not before, and nothing else about it
   * changes.
   */
  lemma ToggleFlipsToday(s: State, id: string, now: int, newDayId: DayId)
    requires Valid(s)
    requires ToggleStep(s, id, now, newDayId).outcome == Ok
    ensures var next := ToggleStep(s, id, now, newDayId).next;
      && GetDay(next, now).possibleHabits == GetDay(s, now).possibleHabits
      && (forall h :: h in GetDay(next, now).completedHabits <==> (h in GetDay(s, now).completedHabits <==> h != id))
  {
  }

  /** A toggle, successful or not, leaves the day view of every other calendar day as it was. */
  lemma ToggleLeavesOtherDays(s: State, id: string, now: int, newDayId: DayId, date: int)
    requires Valid(s)
    requires StartOfDay(date) != StartOfDay(now)
    ensures GetDay(ToggleStep(s, id, now, newDayId).next, date) == GetDay(s, date)
  {
  }

  /**
   * The mutable store behind the routes: the `habits` (with their weekday
   * rules), `days` and `day_habits` tables.
   */
  class Store {
    var habits: map<HabitId, Habit>
    var days: map<int, DayId>
    var completions: set<(DayId, HabitId)>

    /** The store's current contents as a value. */
    function Snapshot(): State
      reads this
    {
      State(habits, days, completions)
    }

    constructor ()
      ensures Snapshot() == EMPTY
    {
      habits, days, completions := map[], map[], {};
    }

    /** `POST /habits`. */
    method CreateHabit(title: string, weekDays: seq<int>, now: int, newId: HabitId) returns (r: Outcome)
      modifies this
      ensures Transition(r, Snapshot()) == CreateHabitStep(old(Snapshot()), title, weekDays, now, newId)
      ensures Valid(old(Snapshot())) ==> Valid(Snapshot())
    {
      if Valid(Snapshot()) {
        CreateHabitPreservesValid(Snapshot(), title, weekDays, now, newId);
      }
      if !ValidWeekDays(weekDays) {
        return Err(Validation);
      }
      if newId in habits {
        return Err(UniqueViolation);
      }
      habits := habits[newId := Habit(title, now, weekDays)];
      r := Ok;
    }

    /** `PATCH /habits/:id/toggle`, with the server clock reading `now`. */
    method ToggleToday(id: string, now: int, newDayId: DayId) returns (r: Outcome)
      modifies this
      ensures Transition(r, Snapshot()) == ToggleStep(old(Snapshot()), id, now, newDayId)
      ensures Valid(old(Snapshot())) ==> Valid(Snapshot())
    {
      if Valid(Snapshot()) {
        TogglePreservesValid(Snapshot(), id, now, newDayId);
      }
      if !ValidId(id) {
        return Err(Validation);
      }
      var today := StartOfDay(now);
      var day: DayId;
      if today in days {
        day := days[today];
      } else {
        if newDayId in days.Values {
          return Err(UniqueViolation);
        }
        days := days[today := newDayId];
        day := newDayId;
      }
      if (day, id) in completions {
        completions := completions - {(day, id)};
      } else {
        if id !in habits {
          return Err(ForeignKeyViolation);
        }
        completions := completions + {(day, id)};
      }
      r := Ok;
    }
  }
}

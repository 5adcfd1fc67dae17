/**
 * The persistent state the four handlers share: habits with their weekday
 * rules, Days keyed by their normalised date, and completions linking a Day
 * to a Habit. The relational tables `habits`, `habit_week_days`, `days` and
 * `day_habits` are represented abstractly; a habit's weekday rules are the
 * sequence of `week_day` values it was created with, one entry per rule row.
 */
module HabitStore {
  import opened Calendar

  type HabitId = string
  type DayId = string

  /** A habit record together with its weekday rule rows, in insertion order. */
  datatype Habit = Habit(title: string, createdAt: int, weekDays: seq<int>)

  /** One snapshot of the whole store. */
  datatype State = State(
    habits: map<HabitId, Habit>,
    days: map<int, DayId>,
    completions: set<(DayId, HabitId)>)

  /** Why a request fails: a rejected request body or parameter, or a constraint of the store. */
  datatype Error =
    | Validation           // the request does not parse
    | UniqueViolation      // a generated primary key is already taken
    | ForeignKeyViolation  // a completion names a habit that does not exist

  datatype Outcome = Ok | Err(error: Error)

  const EMPTY: State := State(map[], map[], {})

  predicate IsWeekDay(w: int) {
    0 <= w <= 6
  }

  /** Every weekday rule names a day of the week. */
  predicate ValidWeekDays(weekDays: seq<int>) {
    forall i | 0 <= i < |weekDays| :: IsWeekDay(weekDays[i])
  }

  predicate IsHexDigit(c: char) {
    '0' <= c <= '9' || 'a' <= c <= 'f' || 'A' <= c <= 'F'
  }

  /**
   * The textual UUID shape the toggle route accepts for its `:id` parameter:
   * 32 hexadecimal digits in groups of 8-4-4-4-12 separated by dashes.
   */
  predicate ValidId(id: string) {
    && |id| == 36
    && (forall i | 0 <= i < 36 :: if i == 8 || i == 13 || i == 18 || i == 23 then id[i] == '-' else IsHexDigit(id[i]))
  }

  /** The ids of the Days in the store. */
  function DayIds(s: State): set<DayId> {
    s.days.Values
  }

  /** The habits marked complete on the Day `dayId`. */
  function CompletedOn(s: State, dayId: DayId): set<HabitId> {
    set p | p in s.completions && p.0 == dayId :: p.1
  }

  /**
   * The store's invariant: rules name weekdays, Days are stored under the
   * first millisecond of their date, distinct dates have distinct Day ids
   * (so a Day id determines its date), and every completion refers to an
   * existing Day and an existing habit. At most one Day per date and at most
   * one completion per (day, habit) pair hold by construction: `days` is a
   * map keyed by date and `completions` is a set of pairs.
   */
  ghost predicate Valid(s: State) {
    && (forall id | id in s.habits :: ValidWeekDays(s.habits[id].weekDays))
    && (forall date | date in s.days :: StartOfDay(date) == date)
    && (forall d1, d2 | d1 in s.days && d2 in s.days && s.days[d1] == s.days[d2] :: d1 == d2)
    && (forall p | p in s.completions :: p.0 in s.days.Values && p.1 in s.habits)
  }

  /** The empty store satisfies the invariant. */
  lemma EmptyValid()
    ensures Valid(EMPTY)
  {
  }

  /** Under the invariant, only existing habits are ever completed on a Day. */
  lemma CompletedAreHabits(s: State, dayId: DayId)
    requires Valid(s)
    ensures CompletedOn(s, dayId) <= s.habits.Keys
    ensures dayId !in DayIds(s) ==> CompletedOn(s, dayId) == {}
  {
  }
}

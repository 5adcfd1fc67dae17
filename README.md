# Habit tracker routes, modelled in Dafny

The backend lets a client define habits that recur on chosen weekdays. A
client marks a habit done for today, and asks which habits were possible and
completed on a date. It also gets a per-day summary of completed against
possible habits. All of this lives in four route handlers over a relational
store (`src/routes.ts`). This project models those handlers and proves what
they guarantee.

- `calendar.dfy` (module `Calendar`): time as integer milliseconds. Two
  functions stand in for dayjs: `StartOfDay(t) = t - t % MS_PER_DAY` for
  `startOf('day')`, and `WeekDay(t) = (t / MS_PER_DAY + 4) % 7` for
  `get('day')`, with 1970-01-01 a Thursday. Both are UTC.
- `store.dfy` (module `HabitStore`): the store as a value `State`. It holds
  `habits` (id ↦ title, creation instant and weekday rules, one entry per
  rule row), `days` (normalised date ↦ Day id) and `completions` (a set of
  (Day id, habit id) pairs). The module also gives the store invariant
  `Valid`, the error kinds and the UUID shape `ValidId` that the toggle route
  demands of its `:id`.
- `queries.dfy` (module `Queries`): `GET /day` as `GetDay` and `GET /summary`
  as `Summary`, both functions of a `State`.
- `routes.dfy` (module `Routes`): `POST /habits` and `PATCH
  /habits/:id/toggle`. Each is a transition function on `State`
  (`CreateHabitStep`, `ToggleStep`) with its properties proved. The class
  `Store` has fields `habits`, `days` and `completions`, and its methods
  `CreateHabit` and `ToggleToday` update those fields step by step, as the
  handlers do. Each method is proved to perform exactly its transition.
- `cardinality.dfy` (module `Cardinality`): sizes of images of finite sets.
  These relate the summary's counts to the sets the day view returns.
- `scenarios.dfy` (module `Scenarios`): concrete runs. They cover creating and
  toggling one habit, the seed fixture's summary, and the inputs on which the
  summary and the day view disagree.

The server clock and the store's generator of fresh keys are parameters:
`now` is the instant the request is handled, and `newId` / `newDayId` is the
primary key the store would give a row it inserts. When a generated key is
already taken, the store rejects the insert and the model returns
`Err(UniqueViolation)`.

Behaviour of the code that the model keeps:

- Title: any string is accepted as a title, the empty string included
  (`z.string()`, `src/routes.ts:12`).
- Unknown habit: the toggle makes no existence check of its own. For an
  unknown habit the completion insert fails on the foreign key from
  `day_habits.habit_id` to `habits`, and the model returns
  `Err(ForeignKeyViolation)`.
- Partial writes: the toggle's store calls are not one transaction. A Day
  created before a failed completion insert stays, so a toggle for an
  unknown habit on a day with no Day yet leaves a new, empty Day behind.
  `ToggleStep` keeps it.
- Summary `amount`: the SQL counts rows of `habit_week_days`, not habits, so
  a habit that lists a weekday twice counts twice
  (`DuplicateRulesCountTwice`). Without repeated rules the two agree
  (`SummaryMatchesDayView`).
- Creation instants: the day view compares creation times with the raw
  requested instant, but looks the Day up under the normalised date
  (`SameDayAsymmetry`). The summary compares creation times with the Day's
  midnight, so a habit created and completed on the same afternoon shows
  as 1 completed of 0 possible (`CompletedButNotCounted`).

## Model

| member | source | states |
|---|---|---|
| Calendar.StartOfDay | src/routes.ts:45 | the normalised date is the multiple of a day at or just below the instant: `d <= t < d + MS_PER_DAY` |
| Calendar.WeekDay | src/routes.ts:46 | the weekday of an instant is in 0..6 |
| Calendar.SameDayIff | src/routes.ts:45 | two instants normalise to the same date iff they lie in the same whole day since the epoch |
| Calendar.StartOfDayIdempotent | src/routes.ts:89-100 | normalising a normalised date changes nothing, so a Day stored under `today` is found again by a later lookup of `today` |
| Calendar.WeekDayOfStartOfDay | src/routes.ts:45-46 | the weekday of the normalised date equals the weekday of the raw instant |
| Calendar.NextDayWeekDay | src/routes.ts:46 | the next day's weekday is the current one plus one, modulo 7 |
| HabitStore.EmptyValid | prisma/seed.ts:14-17 | the emptied store satisfies the invariant |
| HabitStore.CompletedAreHabits | src/routes.ts:125-130 | under the invariant, a Day's completions name only existing habits, and an unknown Day id has none |
| Queries.GetDay | src/routes.ts:38-78 | a habit is possible iff it was created at or before the raw instant and has a rule for that instant's weekday, and each possible habit is returned as its `habits` row (title and creation instant, without the weekday rules); completed ids are exactly the habits completed on the Day stored under the normalised date, or none when no such Day exists |
| Queries.CompletedHabitsExist | src/routes.ts:61-72 | under the invariant, the day view lists only existing habits as completed |
| Queries.CompletedCountBound | src/routes.ts:61-72 | under the invariant, the day view never lists more completed habits than the store holds habits |
| Queries.SameDayViews | src/routes.ts:45-63 | two instants of one calendar day see the same completions, and the later one sees every habit the earlier one sees |
| Queries.Summary | src/routes.ts:135-157 | exactly one row per Day, each carrying the Day's id and date, the number of its completions and the number of matching rule rows |
| Queries.RuleRowHabits | src/routes.ts:147-155 | the habits owning the rule rows counted for a Day are exactly the habits the day view finds possible at that Day's date |
| Queries.RuleRowsInjective | src/routes.ts:147-155 | when no habit repeats a weekday, each habit contributes at most one rule row to a Day's `amount` |
| Queries.AmountCountsPossibleHabits | src/routes.ts:147-155 | `amount` is at least the number of possible habits at that date, and equal to it when no habit repeats a weekday |
| Queries.SummaryMatchesDayView | src/routes.ts:136-156 | for a valid store, a row's `completed` equals the size of the day view's completed list at the row's date, whatever habit was completed; its `amount` bounds the possible list from above and equals its size without repeated rules; `completed` never exceeds the number of habits |
| Routes.CreateHabitStep | src/routes.ts:10-35 | rejected with a validation error, store unchanged, iff some weekday is outside 0..6; otherwise exactly one habit is added, created at `now`, with the given title and one rule per listed weekday, duplicates kept, and nothing else changes (a taken key leaves the store unchanged) |
| Routes.CreateHabitPreservesValid | src/routes.ts:13-15 | creating a habit keeps the store invariant |
| Routes.CreateHabitKeepsNoDuplicateRules | src/routes.ts:22-34 | creating a habit whose weekdays are pairwise distinct keeps every habit free of repeated rules, the hypothesis under which `amount` equals the day view's count |
| Routes.CreatedHabitIsPossible | src/routes.ts:22-34 | a habit created at `now` is possible at an instant iff the instant is not before `now` and its weekday is listed; no day's completions change |
| Routes.ToggleStep | src/routes.ts:81-133 | a non-UUID id is rejected with the store unchanged; otherwise the Day of `StartOfDay(now)` is reused or created, so exactly one Day exists for today; habits never change; on success exactly the pair (today's Day, id) flips membership in the completions; an unknown habit is refused by the foreign key, with the completions unchanged |
| Routes.TogglePreservesValid | src/routes.ts:89-131 | every toggle, successful or not, keeps the invariant: one Day per date, distinct Day ids, completions naming existing Days and habits |
| Routes.ToggleTwiceRestores | src/routes.ts:105-131 | a second toggle of the same habit at the same instant succeeds and restores the original completions, with no further Day created |
| Routes.ToggleFlipsToday | src/routes.ts:105-131 | after a successful toggle, today's view lists `id` as completed iff it did not before; other habits and the possible habits are unchanged |
| Routes.ToggleLeavesOtherDays | src/routes.ts:89-131 | a toggle leaves the day view of every other calendar day unchanged |
| Routes.Store.CreateHabit | src/routes.ts:10-35 | the method leaves the fields in the state `CreateHabitStep` gives, returns its outcome, and keeps the invariant |
| Routes.Store.ToggleToday | src/routes.ts:81-133 | the method (find-or-create the Day, then delete or insert the completion) leaves the fields in the state `ToggleStep` gives, returns its outcome, and keeps the invariant |
| Scenarios.DrinkWaterScenario | src/routes.ts:22-131 | a Monday-to-Wednesday habit created on 2022-12-31 is possible on Monday 2023-01-02 with nothing completed; one toggle completes it and a second leaves nothing completed, for any UUID and Day keys |
| Scenarios.ToggleTwice | src/routes.ts:81-133 | a caller of the mutable store that toggles one habit twice at one instant gets its completions back |
| Scenarios.SeedValid | prisma/seed.ts:23-118 | the seed fixture satisfies the store invariant |
| Scenarios.SeedMonday | prisma/seed.ts:76-86 | the seeded Monday's summary row is 1 completed of 1 |
| Scenarios.SeedWednesday | prisma/seed.ts:106-117 | the seeded Wednesday's row is 2 of 2: two habits share weekday 3 and both are completed |
| Scenarios.SeedFriday | prisma/seed.ts:91-101 | the seeded Friday's row is 1 of 1, although the completed habit is not scheduled on Fridays and the scheduled one is not completed |
| Scenarios.SeedSummary | src/routes.ts:136-156 | the summary of the seed fixture is exactly the three rows above |
| Scenarios.DuplicateRulesCountTwice | src/routes.ts:147-155 | a habit listing Monday twice gives a Monday an `amount` of 2 while the day view lists one possible habit |
| Scenarios.SameDayAsymmetry | src/routes.ts:45-59 | a habit created at noon is absent from the 09:00 day view and present in the 13:00 view of the same day, though both see the same completions |
| Scenarios.CompletedButNotCounted | src/routes.ts:147-155 | a habit created and completed on a Monday afternoon is possible in that afternoon's view, but the Monday row reads 1 completed of 0 |

## Left out

- HTTP and server start-up: `src/server.ts` (Fastify, CORS, `listen`) is pure I/O.
- Request parsing: the model keeps the checks the handlers depend on. These
  are weekdays in 0..6, a UUID-shaped `:id`, and the query date as an integer
  instant. Type errors in a request body are not modelled. Neither is the
  coercion of the query string into a date, or invalid dates.
- Fractional weekdays: `z.number().min(0).max(6)` also accepts values such as
  2.5. Weekdays are integers in the model.
- UUID shape: `ValidId` checks the 8-4-4-4-12 hexadecimal shape. It does not
  check the exact regular expression of the zod version in use (version or
  variant digits).
- Time zones: dayjs normalises in the server's local time zone. The model
  uses UTC days. In the seed script the habits' creation instants
  (`prisma/seed.ts:5,8,11`) carry no zone and are local 03:00. The Days'
  dates (`prisma/seed.ts:79,94,109`) are 03:00 UTC. `Scenarios` moves both
  to UTC midnight, which gives the same summary rows.
- Queries.SummaryMatchesDayView: the agreement holds under one weekday
  function for both routes. In the code the summary takes the weekday of a
  stored Day date from the database (`EXTRACT(DOW ...)`,
  `src/routes.ts:153`), on the stored UTC instant. The day view takes it
  from dayjs in local time (`src/routes.ts:45-46`). On a server east of
  UTC, a Day's local midnight falls on the previous UTC date, and the
  summary counts the rules of the previous weekday. The agreement then
  fails even without repeated rules. The model assumes the two weekdays
  coincide: a UTC server, or one west of UTC.
- Queries.RuleRowHabits and Queries.AmountCountsPossibleHabits: same
  single-weekday assumption as the line above.
- Store schema: `prisma/schema.prisma` is not part of this model. Two of the
  unique constraints it must declare can be read from the code: `findUnique`
  on `date` (`src/routes.ts:91-95`) and on `day_id_habit_id`
  (`src/routes.ts:105-112`). The model assumes two more constraints: a
  foreign key from `day_habits.habit_id` to `habits`, and no uniqueness on
  (`habit_id`, `week_day`).
- Routes.CreateHabitStep: keeps a repeated weekday as two rule rows. If the
  schema declares `@@unique([habit_id, week_day])`, a body such as
  `weekDays: [1, 1]` fails as a whole, because the nested create runs as one
  transaction. The model does not capture that failure.
- Scenarios.DuplicateRulesCountTwice: the `DOUBLE_MONDAY` store is reachable
  only without a uniqueness constraint on (`habit_id`, `week_day`). With
  that constraint every store satisfies `NoDuplicateRules`
  (`CreateHabitKeepsNoDuplicateRules`), and `amount` equals the day view's
  count.
- Day view response: the possible habits are returned as `HabitRow`s (title
  and creation instant), keyed by id. Columns of `habits` outside this model
  are not represented.
- Float counts: the `cast(count(*) as float)` in the summary query is
  dropped. Counts are integers.
- Result order: `possibleHabits` is a map from id to record, `completedHabits`
  a set, and the summary a set of rows. The store's row order is not
  modelled, and neither routes promises one.
- Concurrency: each request runs to completion before the next starts. The
  race between two toggles of one habit on one day is not modelled. Within a
  toggle, the Day creation survives a later failure, as in the code.
- Store failures: a database that is unavailable or fails for other reasons
  is not modelled. The only store errors modelled are a taken primary key and
  a missing habit behind a completion.
- The unused `today` in habit creation (`src/routes.ts:20`) has no effect and
  is not modelled.
- The seed script's deletes and its `Promise.all` are not modelled. Only its
  data is used, as the `SEED` store.

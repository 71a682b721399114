# Goal roadmap store: a Dafny model

This project models the backend of a personal-goal planner (`main.py`). A user
describes a goal: owner, goal name, deadline, description, topics, routine,
and hours available on weekdays and weekends. A text-generation service is
asked for a day-by-day roadmap. The roadmap is stored with the goal and is
never edited afterwards (the "frozen" roadmap). The user then logs dated
progress rows against the goal, and deleting a goal removes it together with
its progress rows.

The model has six modules:

- `Wrappers` (`wrappers.dfy`): `Option`, `Result`, `Outcome` and the service's
  three errors: `MalformedPlan`, `NotFound` and `PersistenceError`.
- `Json` (`json.dfy`): an abstract JSON value. It is what a JSON decoder
  returns; the text form is not modelled.
- `Roadmap` (`roadmap.dfy`): the required roadmap shape and the check
  `ParsePlan`. The shape is an object with a `days` list, and each element is
  an object with a string `day` and a `tasks` list of strings. The module also
  has the encoding of a `Plan` back to JSON and the round-trip proof.
- `Table` (`table.dfy`): a table as a sequence of rows, with its two queries as
  functions. `FindWhere` is `SELECT ... WHERE col = ?` returning the first row,
  and `DeleteWhere` is `DELETE ... WHERE col = ?`. Lemmas cover uniqueness,
  order, idempotence and deleting an absent value.
- `GoalStore` (`goal_store.dfy`): the class `Store`. It holds the `goals` and
  `tracker` tables as sequences and the two AUTOINCREMENT counters (the
  largest id ever assigned in each table). A ghost set records every goal id
  ever issued. Each of the five routes is a method. The object invariant
  `Valid()` says:
  - ids strictly increase along each table;
  - every stored id was issued and is at most its counter;
  - every tracker row names a stored goal.
- `AsWritten` (`as_written.dfy`): the generate and tracker routes exactly as
  `main.py` writes them, used for the findings below.
- `Scenarios` (`scenarios.dfy`): client methods that walk through sessions
  (create, list, get, track, delete, recreate) and prove their outcomes from
  the store's contracts alone.

Modelling decisions:

- **Validate first.** The generate route checks the reply before it inserts
  anything, so a malformed reply never creates a goal. `main.py:105-113`
  inserts first and decodes afterwards (see Findings).
- **Tracker inserts check the goal.** The tracker route refuses a `goal_id`
  that names no stored goal with `NotFound`. The foreign key at `main.py:60`
  is declared but not enforced (see Findings).
- **Ids.** They come from AUTOINCREMENT counters, so an id is never reused,
  even after its goal is deleted. SQLite refuses an insert once the counter
  has reached 2^63-1; the model returns `PersistenceError` in that case.
- **Listing order.** The listing is in table order, which is insertion order
  and therefore ascending id. `SELECT` without `ORDER BY` returns rowid order
  for these tables; the model takes that as the listing order.
- **Day labels.** A `day` label must be a JSON string; the route asks for
  `'day': 'Day 1'`. Keys other than `days`, `day` and `tasks` are ignored.
- **Hours.** `weekdayHours` and `weekendHours` are `int`s of any sign. The
  request model at `main.py:74-75` declares them as `int` and checks no sign,
  so the model does not require them to be non-negative.
- **Integer width.** Request integers are unbounded, as Python's are. SQLite
  takes a statement parameter only if it lies in [-2^63, 2^63-1]. A larger
  value is refused while the parameters are bound, before the statement runs,
  and the request fails with the tables unchanged. The model returns
  `PersistenceError` for such a value (`GoalStore.Bindable`). This covers:
  - an hour field on create (`main.py:107-110`);
  - the id on get (`main.py:123`);
  - the goal id on a tracker update (`main.py:142-145`);
  - the id on delete (`main.py:151`).
- **Generate result.** The generate route returns the accepted `Plan`, as
  `main.py:113` returns only the roadmap. The store-level `CreateGoal` returns
  the new id.

## Model

| member | source | states |
|---|---|---|
| `Roadmap.ParseTasks` | App.jsx:62 | succeeds iff every item is a JSON string; the result lists those strings in order, one per item; failure is MalformedPlan |
| `Roadmap.ParseDay` | App.jsx:58-62 | succeeds iff the object has a string `day` and a `tasks` list of strings; the Day then carries that label and every task |
| `Roadmap.ParseDays` | App.jsx:104-108 | succeeds iff every element is a day object; the result has one Day per element, each describing its element |
| `Roadmap.ParsePlan` | main.py:96 | accepts a value iff it has the requested `days` shape; an accepted Plan has exactly one Day per element, each read in full, so no partial plan; otherwise MalformedPlan |
| `Roadmap.ReadPlan` | main.py:113 | a reply that is not JSON, or JSON of the wrong shape, is MalformedPlan; it is a Plan iff the reply is JSON of the required shape |
| `Roadmap.TasksToJson` | main.py:110 | encodes tasks as one JSON string per task, in order |
| `Roadmap.DaysToJson` | main.py:110 | encodes days as one day object per day, in order |
| `Roadmap.TasksRoundTrip` | main.py:137 | checking the encoding of a task list gives back the same tasks |
| `Roadmap.DaysRoundTrip` | main.py:137 | checking the encoding of a day list gives back the same days |
| `Roadmap.PlanRoundTrip` | main.py:137 | a stored Plan written as JSON is well shaped and checks back to the same Plan (lossless storage) |
| `Roadmap.ParsePlanDeterminedByDays` | main.py:96 | two accepted replies with the same `day` and `tasks` values per element give the same Plan, whatever other keys they carry |
| `Roadmap.SamePlanSameDays` | main.py:96 | conversely, two accepted replies giving the same Plan have the same `day` and `tasks` values in every element |
| `Table.FindWhere` | main.py:123-124 | finds a row iff some row holds the value; a found row is in the table and holds it |
| `Table.DeleteWhere` | main.py:151-152 | keeps exactly the rows whose column differs from the value; it never adds rows |
| `Table.DeleteWhereSplits` | main.py:151-152 | deleting from a concatenation is deleting from each part, so survivors keep their order and repetitions |
| `Table.FindWhereUnique` | main.py:40 | with strictly increasing keys, looking up a stored row's key returns that row |
| `Table.DeleteWhereAbsent` | main.py:151 | deleting a value that no row holds leaves the table unchanged |
| `Table.DeleteWhereIdempotent` | main.py:151-152 | deleting the same value twice is deleting it once |
| `Table.DeleteWhereKeepsOrder` | main.py:117 | deleting keeps the surviving rows in key order |
| `Table.AppendKeepsOrder` | main.py:40 | appending a row whose key exceeds all keys keeps the keys strictly increasing |
| `GoalStore.Summaries` | main.py:117-119 | the listing has one `{id, name, deadline}` per stored goal, in table order, and nothing else |
| `GoalStore.Lookup` | main.py:123-126 | NotFound iff no stored goal has the id; otherwise a stored goal with that id |
| `GoalStore.LookupStored` | main.py:127-138 | with unique ids, the detail of a stored goal's id is exactly that goal, roadmap included |
| `GoalStore.LookupAfterInsert` | main.py:107-110 | after inserting a goal under a fresh larger id, its lookup returns it unchanged and every other id's lookup is as before |
| `GoalStore.LookupAfterDelete` | main.py:151 | after deleting an id, looking it up fails with NotFound and every other id's lookup is as before |
| `GoalStore.DeleteAbsentIsNoOp` | main.py:150-154 | deleting an id that no goal has changes neither table, since no tracker row names it |
| `GoalStore.CascadeKeepsReferences` | main.py:60 | after the cascading delete, every remaining tracker row still names a remaining goal |
| `GoalStore.CascadeKeepsValid` | main.py:150-154 | the cascading delete keeps the store invariant (order, issued ids, references) |
| `GoalStore.Store.constructor` | main.py:38-62 | a new store holds no goals and no tracker rows, and both counters are at 0 |
| `GoalStore.Store.CreateGoal` | main.py:107-111 | inserts exactly one goal at the end under an id above every id ever issued, including deleted ones; PersistenceError, with nothing stored, when an hour field cannot be bound or the counter is exhausted; no stored goal is edited |
| `GoalStore.Store.GenerateGoal` | main.py:84-113 | a malformed reply fails with MalformedPlan and stores nothing; a well-shaped reply is stored with its Plan under the next id and returned; PersistenceError, with nothing stored, when an hour field cannot be bound or the counter is exhausted; no stored goal is edited |
| `GoalStore.Store.ListGoals` | main.py:115-119 | returns the summaries of all stored goals in insertion order, with ids ascending |
| `GoalStore.Store.GetGoal` | main.py:121-138 | returns the stored goal with that id exactly as stored, or NotFound; PersistenceError for an id that cannot be bound; nothing changes |
| `GoalStore.Store.UpdateTracker` | main.py:140-147 | appends exactly one row at the end, with no dedup for the same goal and date, and leaves existing rows untouched; NotFound when the goal is not stored, and PersistenceError for a goal id that cannot be bound, with nothing changed |
| `GoalStore.Store.DeleteGoal` | main.py:149-154 | removes the goal and every tracker row naming it and keeps everything else, in order; an absent id changes nothing (idempotent); an id that cannot be bound fails with PersistenceError and changes nothing |
| `AsWritten.GenerateGoalAsWritten` | main.py:105-113 | as written, the row is stored before decoding: text that is not JSON still adds a row and then fails, and any decoded JSON is returned unchecked; an hour field that cannot be bound stores nothing |
| `AsWritten.UpdateTrackerAsWritten` | main.py:141-147 | as written, one row is appended whatever goal a bindable goal id names |
| `AsWritten.StoreBeforeParse` | main.py:107-113 | as written, a reply that is not JSON makes the request fail with MalformedPlan, yet one goal row has been added |
| `AsWritten.UncheckedShape` | main.py:113 | as written, a JSON reply without the `days` shape (here `null`) is returned as a success |
| `AsWritten.DanglingTrackerRow` | main.py:60 | on an empty store, a tracker update for goal 99 is stored although it names no goal |

## Left out

- The OpenAI call (`main.py:99-105`) is not modelled. Its reply is a
  parameter of `GenerateGoal`: either a JSON value or text that is not JSON.
- The prompt text (`main.py:87-97`) is not modelled. It is free text with no
  structure to check beyond the roadmap shape the model enforces.
- FastAPI routing, HTTP status codes, CORS and API-key loading
  (`main.py:15-30`) are plumbing. Errors are `Result`/`Outcome` variants.
- The SQLite connection, cursor, `commit` and `check_same_thread=False` are not
  modelled. Each route is one method call, so it is atomic. Concurrent
  requests on the shared cursor are not modelled.
- JSON text is not modelled (`json.loads`/`json.dumps` at `main.py:113`, 137
  and 145). The stored roadmap is a `Plan` value, and the tracker `tasks` dict
  is a `map<string, Json>`.
- JSON numbers are integers only; floating point is not modelled.
- `GenerateGoal` returns the accepted `Plan`. `main.py:113` returns the whole
  decoded reply, which may carry keys beyond `days`.
- Get-goal returns the `Goal` record: the id, the request fields and the
  roadmap. It does not build the flattened dictionary of `main.py:127-138`.
  The scalar fields are the same. The roadmap differs: `main.py:137` returns
  `json.loads` of the stored reply, with every key it carried. The model
  stores and returns the accepted `Plan`, which keeps only `days`, `day` and
  `tasks`.
- Text columns have no length limit in the model. SQLite's limit on string
  and blob length is not modelled.
- `index.js`, `server.js` and `script.js` are not part of this model. They
  relay text to other clients.
- `App.jsx` appears only as the consumer of the roadmap shape
  (`App.jsx:58-62`, `App.jsx:104-108`).

## Findings

| source | as written | input that shows it | evidently intended | confidence | as-written member | corrected member |
|---|---|---|---|---|---|---|
| main.py:105-113 | inserts and commits the raw reply before `json.loads`, and never checks the shape | a reply that is not JSON: the request fails, but a goal row is stored (`AsWritten.StoreBeforeParse`); a JSON `null` reply is stored and returned as a success (`AsWritten.UncheckedShape`) | validate the reply into a Plan first, and store only a valid Plan | medium, not executed | `AsWritten.GenerateGoalAsWritten` | `GoalStore.Store.GenerateGoal` |
| main.py:141-147 | inserts a tracker row with no existence check; SQLite does not enforce the foreign key at `main.py:60` by default | `goal_id` 99 on an empty store is stored as a dangling row (`AsWritten.DanglingTrackerRow`) | refuse an unknown goal id with NotFound | high, not executed | `AsWritten.UpdateTrackerAsWritten` | `GoalStore.Store.UpdateTracker` |

/** The goal service's store: the `goals` and `tracker` tables, each with its
    AUTOINCREMENT counter, and the five route bodies that read and write them.
    A goal is only ever inserted or deleted, never edited, so a stored
    roadmap stays frozen; a tracker row is only ever appended, and removed
    only together with its goal. */
module GoalStore {
  import opened Wrappers
  import opened Json
  import opened Roadmap
  import opened Table

  /** SQLite's largest rowid; an AUTOINCREMENT table whose counter has reached
      it refuses further inserts. */
  const MaxRowId: int := 0x7FFF_FFFF_FFFF_FFFF

  /** SQLite's smallest INTEGER. */
  const MinInteger: int := -0x8000_0000_0000_0000

  /** An integer SQLite can take as a statement parameter. A larger one is
      refused when the statement's parameters are bound, before the statement
      runs, so the request fails with the tables untouched. */
  predicate Bindable(x: int) {
    MinInteger <= x <= MaxRowId
  }

  /** Both integer fields of a goal request can be bound. */
  predicate InputBindable(input: GoalInput) {
    Bindable(input.weekdayHours) && Bindable(input.weekendHours)
  }

  /** The request body of the generate route. */
  datatype GoalInput = GoalInput(
    userName: string, name: string, deadline: string, description: string,
    topics: string, routine: string, weekdayHours: int, weekendHours: int)

  /** A row of `goals`: the request's fields and the roadmap stored with them. */
  datatype Goal = Goal(id: int, input: GoalInput, roadmap: Plan)

  /** The request body of the tracker route. */
  datatype TrackerUpdate = TrackerUpdate(goalId: int, date: string, tasks: map<string, Json>, comments: string)

  /** A row of `tracker`. */
  datatype TrackerEntry = TrackerEntry(id: int, update: TrackerUpdate)

  /** One element of the goal listing. */
  datatype GoalSummary = GoalSummary(id: int, name: string, deadline: string)

  // Columns
  function GoalId(g: Goal): int { g.id }
  function EntryId(e: TrackerEntry): int { e.id }
  function EntryGoalId(e: TrackerEntry): int { e.update.goalId }

  function Summarize(g: Goal): GoalSummary {
    GoalSummary(g.id, g.input.name, g.input.deadline)
  }

  /** The listing: one summary per goal, in table order. */
  function Summaries(goals: seq<Goal>): (r: seq<GoalSummary>)
    ensures |r| == |goals|
    ensures forall i :: 0 <= i < |goals| ==> r[i] == Summarize(goals[i])
  {
    if goals == [] then [] else [Summarize(goals[0])] + Summaries(goals[1..])
  }

  /** The goal with this id, or NotFound when the table holds none. */
  function Lookup(goals: seq<Goal>, id: int): (r: Result<Goal, Error>)
    ensures r.Failure? <==> !Exists(goals, GoalId, id)
    ensures r.Failure? ==> r.error == NotFound
    ensures r.Success? ==> r.value in goals && r.value.id == id
  {
    match FindWhere(goals, GoalId, id)
    case None => Failure(NotFound)
    case Some(g) => Success(g)
  }

  /** No goal present both before and after (by id) differs between the two. */
  ghost predicate NoGoalEdited(before: seq<Goal>, after: seq<Goal>) {
    forall a, b :: a in before && b in after && a.id == b.id ==> a == b
  }

  // ---------------------------------------------------------------------------
  // Lookup across inserts and deletes

  /** With unique ids, looking up a stored goal's id returns exactly that goal. */
  lemma LookupStored(goals: seq<Goal>, g: Goal)
    requires StrictlyIncreasing(goals, GoalId)
    requires g in goals
    ensures Lookup(goals, g.id) == Success(g)
  {
    FindWhereUnique(goals, GoalId, g);
  }

  /** After appending a goal with a fresh, larger id, looking it up returns it
      unchanged, and every other id looks up as before. */
  lemma LookupAfterInsert(goals: seq<Goal>, g: Goal, id: int)
    requires StrictlyIncreasing(goals, GoalId)
    requires forall x :: x in goals ==> x.id < g.id
    ensures Lookup(goals + [g], g.id) == Success(g)
    ensures id != g.id ==> Lookup(goals + [g], id) == Lookup(goals, id)
  {
    AppendKeepsOrder(goals, GoalId, g);
    LookupStored(goals + [g], g);
    if id != g.id {
      var before := Lookup(goals, id);
      if before.Success? {
        LookupStored(goals + [g], before.value);
      } else {
        assert !Exists(goals + [g], GoalId, id) by {
          forall x | x in goals + [g] ensures x.id != id {
            assert x in goals || x == g;
          }
        }
      }
    }
  }

  /** After deleting an id, it is not found, and every other id looks up as before. */
  lemma LookupAfterDelete(goals: seq<Goal>, id: int, other: int)
    requires StrictlyIncreasing(goals, GoalId)
    ensures Lookup(DeleteWhere(goals, GoalId, id), id) == Failure(NotFound)
    ensures other != id ==> Lookup(DeleteWhere(goals, GoalId, id), other) == Lookup(goals, other)
  {
    var rest := DeleteWhere(goals, GoalId, id);
    DeleteWhereKeepsOrder(goals, GoalId, GoalId, id);
    if other != id {
      var before := Lookup(goals, other);
      if before.Success? {
        LookupStored(rest, before.value);
      } else {
        assert !Exists(rest, GoalId, other);
      }
    }
  }

  // ---------------------------------------------------------------------------
  // The store's invariant, on the table contents

  /** Every tracker row names a stored goal. */
  ghost predicate ReferencesStored(goals: seq<Goal>, tracker: seq<TrackerEntry>) {
    forall e :: e in tracker ==> Exists(goals, GoalId, e.update.goalId)
  }

  ghost predicate TablesValid(goals: seq<Goal>, tracker: seq<TrackerEntry>,
                              lastGoalId: int, lastEntryId: int, issued: set<int>) {
    && 0 <= lastGoalId <= MaxRowId
    && 0 <= lastEntryId <= MaxRowId
    && StrictlyIncreasing(goals, GoalId)
    && StrictlyIncreasing(tracker, EntryId)
    && (forall g :: g in goals ==> g.id in issued)
    && (forall id :: id in issued ==> 1 <= id <= lastGoalId)
    && (forall e :: e in tracker ==> 1 <= e.id <= lastEntryId)
    && ReferencesStored(goals, tracker)
  }

  /** A goal that is not stored has no tracker rows, so deleting it changes nothing. */
  lemma DeleteAbsentIsNoOp(goals: seq<Goal>, tracker: seq<TrackerEntry>, id: int)
    requires ReferencesStored(goals, tracker)
    requires !Exists(goals, GoalId, id)
    ensures DeleteWhere(goals, GoalId, id) == goals
    ensures DeleteWhere(tracker, EntryGoalId, id) == tracker
  {
    DeleteWhereAbsent(goals, GoalId, id);
    assert !Exists(tracker, EntryGoalId, id) by {
      forall e | e in tracker ensures e.update.goalId != id {
        assert Exists(goals, GoalId, e.update.goalId);
      }
    }
    DeleteWhereAbsent(tracker, EntryGoalId, id);
  }

  /** The cascading delete leaves no tracker row without its goal. */
  lemma CascadeKeepsReferences(goals: seq<Goal>, tracker: seq<TrackerEntry>, id: int)
    requires ReferencesStored(goals, tracker)
    ensures ReferencesStored(DeleteWhere(goals, GoalId, id), DeleteWhere(tracker, EntryGoalId, id))
  {
    var goals', tracker' := DeleteWhere(goals, GoalId, id), DeleteWhere(tracker, EntryGoalId, id);
    forall e | e in tracker' ensures Exists(goals', GoalId, e.update.goalId) {
      assert Exists(goals, GoalId, e.update.goalId);
      var g :| g in goals && g.id == e.update.goalId;
      assert g in goals';
    }
  }

  /** The cascading delete keeps the invariant. */
  lemma CascadeKeepsValid(goals: seq<Goal>, tracker: seq<TrackerEntry>,
                          lastGoalId: int, lastEntryId: int, issued: set<int>, id: int)
    requires TablesValid(goals, tracker, lastGoalId, lastEntryId, issued)
    ensures TablesValid(DeleteWhere(goals, GoalId, id), DeleteWhere(tracker, EntryGoalId, id),
                        lastGoalId, lastEntryId, issued)
  {
    DeleteWhereKeepsOrder(goals, GoalId, GoalId, id);
    DeleteWhereKeepsOrder(tracker, EntryId, EntryGoalId, id);
    CascadeKeepsReferences(goals, tracker, id);
  }

  // ---------------------------------------------------------------------------
  // The store

  class Store {
    var goals: seq<Goal>
    var tracker: seq<TrackerEntry>
    /** The AUTOINCREMENT counters: the largest id ever assigned in each table. */
    var lastGoalId: int
    var lastEntryId: int
    /** Every goal id ever assigned, including those of deleted goals. */
    ghost var issuedGoalIds: set<int>

    ghost predicate Valid()
      reads this
    {
      TablesValid(goals, tracker, lastGoalId, lastEntryId, issuedGoalIds)
    }

    constructor ()
      ensures Valid()
      ensures goals == [] && tracker == []
      ensures lastGoalId == 0 && lastEntryId == 0 && issuedGoalIds == {}
    {
      goals, tracker := [], [];
      lastGoalId, lastEntryId := 0, 0;
      issuedGoalIds := {};
    }

    /** Inserts a goal with an already validated roadmap under a fresh id. */
    method CreateGoal(input: GoalInput, plan: Plan) returns (r: Result<int, Error>)
      requires Valid()
      modifies this
      ensures Valid()
      ensures !InputBindable(input) ==> r == Failure(PersistenceError)
      ensures InputBindable(input) && old(lastGoalId) < MaxRowId ==> r == Success(old(lastGoalId) + 1)
      ensures InputBindable(input) && old(lastGoalId) == MaxRowId ==> r == Failure(PersistenceError)
      ensures r.Success? ==>
        && (forall x :: x in old(issuedGoalIds) ==> x < r.value)
        && (forall g :: g in old(goals) ==> g.id < r.value)
        && goals == old(goals) + [Goal(r.value, input, plan)]
        && lastGoalId == r.value
        && issuedGoalIds == old(issuedGoalIds) + {r.value}
      ensures r.Failure? ==>
        goals == old(goals) && lastGoalId == old(lastGoalId) && issuedGoalIds == old(issuedGoalIds)
      ensures tracker == old(tracker) && lastEntryId == old(lastEntryId)
      ensures NoGoalEdited(old(goals), goals)
    {
      if !InputBindable(input) || lastGoalId == MaxRowId {
        return Failure(PersistenceError);
      }
      var id := lastGoalId + 1;
      var g := Goal(id, input, plan);
      AppendKeepsOrder(goals, GoalId, g);
      goals := goals + [g];
      lastGoalId := id;
      issuedGoalIds := issuedGoalIds + {id};
      r := Success(id);
    }

    /** The generate route: the generator's reply is checked first, and a goal
        is stored only when the reply is a well-shaped Plan. */
    method GenerateGoal(input: GoalInput, reply: Completion) returns (r: Result<Plan, Error>)
      requires Valid()
      modifies this
      ensures Valid()
      ensures r.Success? ==> reply.JsonReply? && IsPlanShaped(reply.value) && r == ReadPlan(reply)
      ensures ReadPlan(reply).Failure? ==> r == Failure(MalformedPlan)
      ensures ReadPlan(reply).Success? && (!InputBindable(input) || old(lastGoalId) == MaxRowId) ==>
        r == Failure(PersistenceError)
      ensures ReadPlan(reply).Success? && InputBindable(input) && old(lastGoalId) < MaxRowId ==> r == ReadPlan(reply)
      ensures r.Success? ==>
        && goals == old(goals) + [Goal(old(lastGoalId) + 1, input, r.value)]
        && lastGoalId == old(lastGoalId) + 1
        && issuedGoalIds == old(issuedGoalIds) + {lastGoalId}
      ensures r.Failure? ==>
        goals == old(goals) && lastGoalId == old(lastGoalId) && issuedGoalIds == old(issuedGoalIds)
      ensures tracker == old(tracker) && lastEntryId == old(lastEntryId)
      ensures NoGoalEdited(old(goals), goals)
    {
      var parsed := ReadPlan(reply);
      if parsed.Failure? {
        return Failure(parsed.error);
      }
      var created := CreateGoal(input, parsed.value);
      if created.Failure? {
        return Failure(created.error);
      }
      r := parsed;
    }

    /** The listing route: every stored goal's id, name and deadline, in
        insertion order, which is ascending id order. */
    method ListGoals() returns (r: seq<GoalSummary>)
      requires Valid()
      ensures r == Summaries(goals)
      ensures forall i, j :: 0 <= i < j < |r| ==> r[i].id < r[j].id
    {
      r := Summaries(goals);
      forall i, j | 0 <= i < j < |r| ensures r[i].id < r[j].id {
        assert r[i] == Summarize(goals[i]) && r[j] == Summarize(goals[j]);
      }
    }

    /** The detail route: the stored goal with this id, exactly as stored, or
        NotFound; an id SQLite cannot bind fails before the query runs. */
    method GetGoal(id: int) returns (r: Result<Goal, Error>)
      requires Valid()
      ensures !Bindable(id) ==> r == Failure(PersistenceError)
      ensures Bindable(id) ==> r == Lookup(goals, id)
      ensures forall g :: g in goals && g.id == id ==> r == Success(g)
    {
      if !Bindable(id) {
        assert forall g :: g in goals ==> g.id in issuedGoalIds;
        return Failure(PersistenceError);
      }
      r := Lookup(goals, id);
      forall g | g in goals && g.id == id ensures r == Success(g) {
        LookupStored(goals, g);
      }
    }

    /** The tracker route: appends one row for a stored goal; an id naming no
        stored goal is refused with NotFound, and one SQLite cannot bind fails
        before anything runs. */
    method UpdateTracker(update: TrackerUpdate) returns (r: Outcome<Error>)
      requires Valid()
      modifies this
      ensures Valid()
      ensures !Bindable(update.goalId) ==> r == Fail(PersistenceError)
      ensures Bindable(update.goalId) && !Exists(goals, GoalId, update.goalId) ==> r == Fail(NotFound)
      ensures Exists(goals, GoalId, update.goalId) && old(lastEntryId) == MaxRowId ==> r == Fail(PersistenceError)
      ensures Exists(goals, GoalId, update.goalId) && old(lastEntryId) < MaxRowId ==> r == Pass
      ensures r.Pass? ==>
        tracker == old(tracker) + [TrackerEntry(old(lastEntryId) + 1, update)] && lastEntryId == old(lastEntryId) + 1
      ensures r.Fail? ==> tracker == old(tracker) && lastEntryId == old(lastEntryId)
      ensures goals == old(goals) && lastGoalId == old(lastGoalId) && issuedGoalIds == old(issuedGoalIds)
    {
      if !Bindable(update.goalId) {
        assert !Exists(goals, GoalId, update.goalId) by {
          assert forall g :: g in goals ==> g.id in issuedGoalIds;
        }
        return Fail(PersistenceError);
      }
      if FindWhere(goals, GoalId, update.goalId).None? {
        return Fail(NotFound);
      }
      if lastEntryId == MaxRowId {
        return Fail(PersistenceError);
      }
      var e := TrackerEntry(lastEntryId + 1, update);
      AppendKeepsOrder(tracker, EntryId, e);
      tracker := tracker + [e];
      lastEntryId := e.id;
      r := Pass;
    }

    /** The delete route: removes the goal and all its tracker rows in one
        call; deleting an id that is not stored changes nothing. An id SQLite
        cannot bind fails before either statement runs. */
    method DeleteGoal(id: int) returns (r: Outcome<Error>)
      requires Valid()
      modifies this
      ensures Valid()
      ensures !Bindable(id) ==> r == Fail(PersistenceError) && goals == old(goals) && tracker == old(tracker)
      ensures Bindable(id) ==> r == Pass
      ensures r.Pass? ==>
        && goals == DeleteWhere(old(goals), GoalId, id)
        && tracker == DeleteWhere(old(tracker), EntryGoalId, id)
        && !Exists(goals, GoalId, id) && !Exists(tracker, EntryGoalId, id)
      ensures !Exists(old(goals), GoalId, id) ==> goals == old(goals) && tracker == old(tracker)
      ensures lastGoalId == old(lastGoalId) && lastEntryId == old(lastEntryId)
      ensures issuedGoalIds == old(issuedGoalIds)
      ensures NoGoalEdited(old(goals), goals)
    {
      if !Bindable(id) {
        return Fail(PersistenceError);
      }
      if !Exists(goals, GoalId, id) {
        DeleteAbsentIsNoOp(goals, tracker, id);
      }
      CascadeKeepsValid(goals, tracker, lastGoalId, lastEntryId, issuedGoalIds, id);
      goals := DeleteWhere(goals, GoalId, id);
      tracker := DeleteWhere(tracker, EntryGoalId, id);
      r := Pass;
    }
  }
}

/** The generate and tracker routes as the source writes them, kept beside the
    store so that their two departures from the intended contract can be
    stated: the generate route inserts the reply before decoding it, and the
    tracker route inserts without looking for the goal. */
module AsWritten {
  import opened Wrappers
  import opened Json
  import opened Roadmap
  import opened GoalStore

  /** A goals row as the source writes it: the roadmap column holds the reply as received. */
  datatype RawGoal = RawGoal(id: int, input: GoalInput, roadmap: Completion)

  /** The generate route as written: insert the raw reply, commit, then decode
      it; a decoded value is returned without any shape check. Text that is not
      JSON is reported as malformed only after its row is stored. An hour
      field SQLite cannot bind fails the insert, and nothing is stored. */
  function GenerateGoalAsWritten(rows: seq<RawGoal>, lastId: int, input: GoalInput, reply: Completion)
    : (r: (seq<RawGoal>, Result<Json, Error>))
    ensures !InputBindable(input) || lastId >= MaxRowId ==> r == (rows, Failure(PersistenceError))
    ensures InputBindable(input) && lastId < MaxRowId ==>
      |r.0| == |rows| + 1 && r.0[|rows|] == RawGoal(lastId + 1, input, reply)
    ensures InputBindable(input) && lastId < MaxRowId && reply.UnparseableReply? ==> r.1 == Failure(MalformedPlan)
    ensures InputBindable(input) && lastId < MaxRowId && reply.JsonReply? ==> r.1 == Success(reply.value)
  {
    if !InputBindable(input) || lastId >= MaxRowId then (rows, Failure(PersistenceError))
    else
      var stored := rows + [RawGoal(lastId + 1, input, reply)];
      match reply
      case UnparseableReply => (stored, Failure(MalformedPlan))
      case JsonReply(j) => (stored, Success(j))
  }

  /** The tracker route as written: the row is appended whatever goal a
      bindable `goalId` names. */
  function UpdateTrackerAsWritten(tracker: seq<TrackerEntry>, lastEntryId: int, update: TrackerUpdate)
    : (r: Result<seq<TrackerEntry>, Error>)
    ensures !Bindable(update.goalId) || lastEntryId >= MaxRowId ==> r == Failure(PersistenceError)
    ensures Bindable(update.goalId) && lastEntryId < MaxRowId ==>
      r.Success? && |r.value| == |tracker| + 1 && r.value[|tracker|] == TrackerEntry(lastEntryId + 1, update)
  {
    if !Bindable(update.goalId) || lastEntryId >= MaxRowId then Failure(PersistenceError)
    else Success(tracker + [TrackerEntry(lastEntryId + 1, update)])
  }

  /** A reply that is not JSON fails the request, yet a goal row has been stored. */
  lemma StoreBeforeParse(rows: seq<RawGoal>, lastId: int, input: GoalInput)
    requires 0 <= lastId < MaxRowId && InputBindable(input)
    ensures GenerateGoalAsWritten(rows, lastId, input, UnparseableReply).1 == Failure(MalformedPlan)
    ensures |GenerateGoalAsWritten(rows, lastId, input, UnparseableReply).0| == |rows| + 1
  {
  }

  /** A JSON reply of the wrong shape is returned as a success and stored. */
  lemma UncheckedShape(rows: seq<RawGoal>, lastId: int, input: GoalInput)
    requires 0 <= lastId < MaxRowId && InputBindable(input)
    ensures !IsPlanShaped(JNull)
    ensures GenerateGoalAsWritten(rows, lastId, input, JsonReply(JNull)).1 == Success(JNull)
  {
  }

  /** On an empty store, a tracker update for goal 99 is stored and names no goal. */
  lemma DanglingTrackerRow()
    ensures var r := UpdateTrackerAsWritten([], 0, TrackerUpdate(99, "2025-05-01", map[], "note"));
            r.Success? && !ReferencesStored([], r.value)
  {
    var r := UpdateTrackerAsWritten([], 0, TrackerUpdate(99, "2025-05-01", map[], "note"));
    assert r.value[0] in r.value;
  }
}

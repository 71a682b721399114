/** Clients of the store that walk through typical sessions, using only the
    store's contracts. */
module Scenarios {
  import opened Wrappers
  import opened Json
  import opened Roadmap
  import opened Table
  import opened GoalStore

  function LearnGo(): GoalInput {
    GoalInput("Asha", "Learn Go", "2025-06-01", "basics", "syntax", "evenings", 2, 5)
  }

  function ReadSyntax(): Plan {
    Plan([Day("Day 1", ["Read syntax"])])
  }

  /** A reply that is not JSON stores nothing. */
  method MalformedReplySession() {
    var store := new Store();
    var bad := store.GenerateGoal(LearnGo(), UnparseableReply);
    assert bad == Failure(MalformedPlan);
    var listed := store.ListGoals();
    assert listed == [];
  }

  /** A reply of the required shape is stored under id 1 and read back unchanged. */
  method CreateListGetSession() {
    var store := new Store();
    PlanRoundTrip(ReadSyntax());
    var ok := store.GenerateGoal(LearnGo(), JsonReply(PlanToJson(ReadSyntax())));
    assert ok == Success(ReadSyntax());
    var listed := store.ListGoals();
    assert listed == [GoalSummary(1, "Learn Go", "2025-06-01")];
    var detail := store.GetGoal(1);
    assert store.goals[0] == Goal(1, LearnGo(), ReadSyntax());
    assert detail == Success(Goal(1, LearnGo(), ReadSyntax()));
    assert detail.value.roadmap.days[0].tasks == ["Read syntax"];
  }

  /** Tracker rows for an absent goal are refused on an empty store. */
  method MissingGoalTrackerSession() {
    var store := new Store();
    var missing := store.UpdateTracker(TrackerUpdate(99, "2025-05-01", map[], "note"));
    assert missing == Fail(NotFound);
  }

  /** Two rows for the same goal and date are both kept, in order. */
  method RepeatedTrackerSession() {
    var store := new Store();
    var created := store.CreateGoal(LearnGo(), ReadSyntax());
    assert store.goals == [Goal(1, LearnGo(), ReadSyntax())];
    var u := TrackerUpdate(1, "2025-05-01", map["Read syntax" := JBool(true)], "done");
    assert Exists(store.goals, GoalId, 1) by {
      assert store.goals[0] in store.goals && GoalId(store.goals[0]) == 1;
    }
    var t1 := store.UpdateTracker(u);
    assert t1 == Pass;
    assert store.tracker == [TrackerEntry(1, u)];
    assert Exists(store.goals, GoalId, 1) by {
      assert store.goals[0] in store.goals && GoalId(store.goals[0]) == 1;
    }
    var t2 := store.UpdateTracker(u);
    assert t2 == Pass;
    assert store.tracker == [TrackerEntry(1, u), TrackerEntry(2, u)];
  }

  /** Deleting removes the goal and its tracker rows, a second delete changes
      nothing, and the deleted id is not reused. */
  method DeleteSession() {
    var store := new Store();
    var created := store.CreateGoal(LearnGo(), ReadSyntax());
    assert created == Success(1);
    assert store.goals == [Goal(1, LearnGo(), ReadSyntax())];
    assert Exists(store.goals, GoalId, 1) by {
      assert store.goals[0] in store.goals && GoalId(store.goals[0]) == 1;
    }
    var t := store.UpdateTracker(TrackerUpdate(1, "2025-05-01", map[], "started"));
    assert t == Pass && |store.tracker| == 1;
    var d1 := store.DeleteGoal(1);
    assert store.goals == [] && store.tracker == [];
    var d2 := store.DeleteGoal(1);
    assert d1 == Pass && d2 == Pass;
    assert store.goals == [] && store.tracker == [];
    var gone := store.GetGoal(1);
    assert gone == Failure(NotFound);
    var again := store.CreateGoal(LearnGo(), ReadSyntax());
    assert again == Success(2);
  }
}

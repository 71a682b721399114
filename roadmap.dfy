/** The roadmap shape the generator is asked for: an object whose `days` list
    holds one object per day, each with a `day` label and a `tasks` list of
    strings. A generator reply is accepted as a Plan only when it has that
    shape, and is then turned into a Plan that keeps every day and every task. */
module Roadmap {
  import opened Wrappers
  import opened Json

  datatype Day = Day(name: string, tasks: seq<string>)

  /** Days in temporal order, day 1 first. */
  datatype Plan = Plan(days: seq<Day>)

  /** The text-completion reply, after JSON decoding: either a JSON value or
      text that is not JSON at all. */
  datatype Completion = JsonReply(value: Json) | UnparseableReply

  // ---------------------------------------------------------------------------
  // Reference definition of the required shape

  predicate IsTaskList(j: Json) {
    j.JArray? && forall t :: t in j.items ==> t.JString?
  }

  predicate IsDayObject(d: Json) {
    && HasField(d, "day") && d.fields["day"].JString?
    && HasField(d, "tasks") && IsTaskList(d.fields["tasks"])
  }

  /** The shape the client walks when it renders a roadmap. */
  predicate IsPlanShaped(j: Json) {
    && HasField(j, "days") && j.fields["days"].JArray?
    && forall d :: d in j.fields["days"].items ==> IsDayObject(d)
  }

  /** `day` is the Day read from the JSON object `d`: same label, same tasks in the same order. */
  predicate Describes(d: Json, day: Day) {
    && HasField(d, "day") && d.fields["day"] == JString(day.name)
    && HasField(d, "tasks") && d.fields["tasks"].JArray?
    && |d.fields["tasks"].items| == |day.tasks|
    && forall k :: 0 <= k < |day.tasks| ==> d.fields["tasks"].items[k] == JString(day.tasks[k])
  }

  // ---------------------------------------------------------------------------
  // The check

  function ParseTasks(items: seq<Json>): (r: Result<seq<string>, Error>)
    ensures r.Success? <==> forall t :: t in items ==> t.JString?
    ensures r.Failure? ==> r.error == MalformedPlan
    ensures r.Success? ==> |r.value| == |items|
    ensures r.Success? ==> forall k :: 0 <= k < |items| ==> items[k] == JString(r.value[k])
  {
    if items == [] then Success([])
    else if !items[0].JString? then Failure(MalformedPlan)
    else
      match ParseTasks(items[1..])
      case Failure(e) => Failure(e)
      case Success(rest) => Success([items[0].s] + rest)
  }

  function ParseDay(d: Json): (r: Result<Day, Error>)
    ensures r.Success? <==> IsDayObject(d)
    ensures r.Failure? ==> r.error == MalformedPlan
    ensures r.Success? ==> Describes(d, r.value)
  {
    if !(HasField(d, "day") && d.fields["day"].JString? && HasField(d, "tasks") && d.fields["tasks"].JArray?) then
      Failure(MalformedPlan)
    else
      match ParseTasks(d.fields["tasks"].items)
      case Failure(e) => Failure(e)
      case Success(tasks) => Success(Day(d.fields["day"].s, tasks))
  }

  function ParseDays(items: seq<Json>): (r: Result<seq<Day>, Error>)
    ensures r.Success? <==> forall d :: d in items ==> IsDayObject(d)
    ensures r.Failure? ==> r.error == MalformedPlan
    ensures r.Success? ==> |r.value| == |items|
    ensures r.Success? ==> forall i :: 0 <= i < |items| ==> Describes(items[i], r.value[i])
  {
    if items == [] then Success([])
    else
      match ParseDay(items[0])
      case Failure(e) => Failure(e)
      case Success(day) =>
        match ParseDays(items[1..])
        case Failure(e) => Failure(e)
        case Success(rest) => Success([day] + rest)
  }

  /** Accepts `j` as a Plan exactly when it has the required shape; the Plan
      then has one Day per element of `days`, each read in full, so no partial
      plan is ever returned. */
  function ParsePlan(j: Json): (r: Result<Plan, Error>)
    ensures r.Success? <==> IsPlanShaped(j)
    ensures r.Failure? ==> r.error == MalformedPlan
    ensures r.Success? ==> |r.value.days| == |j.fields["days"].items|
    ensures r.Success? ==> forall i :: 0 <= i < |r.value.days| ==> Describes(j.fields["days"].items[i], r.value.days[i])
  {
    if !(HasField(j, "days") && j.fields["days"].JArray?) then Failure(MalformedPlan)
    else
      match ParseDays(j.fields["days"].items)
      case Failure(e) => Failure(e)
      case Success(days) => Success(Plan(days))
  }

  /** The generator's reply as a Plan: text that is not JSON is malformed too. */
  function ReadPlan(c: Completion): (r: Result<Plan, Error>)
    ensures r.Success? <==> c.JsonReply? && IsPlanShaped(c.value)
    ensures r.Failure? ==> r.error == MalformedPlan
  {
    match c
    case UnparseableReply => Failure(MalformedPlan)
    case JsonReply(j) => ParsePlan(j)
  }

  // ---------------------------------------------------------------------------
  // Encoding, so that a stored Plan can be written back as JSON

  function TasksToJson(tasks: seq<string>): (r: seq<Json>)
    ensures |r| == |tasks|
    ensures forall k :: 0 <= k < |tasks| ==> r[k] == JString(tasks[k])
  {
    if tasks == [] then [] else [JString(tasks[0])] + TasksToJson(tasks[1..])
  }

  function DayToJson(day: Day): Json {
    JObject(map["day" := JString(day.name), "tasks" := JArray(TasksToJson(day.tasks))])
  }

  function DaysToJson(days: seq<Day>): (r: seq<Json>)
    ensures |r| == |days|
    ensures forall i :: 0 <= i < |days| ==> r[i] == DayToJson(days[i])
  {
    if days == [] then [] else [DayToJson(days[0])] + DaysToJson(days[1..])
  }

  function PlanToJson(p: Plan): Json {
    JObject(map["days" := JArray(DaysToJson(p.days))])
  }

  // ---------------------------------------------------------------------------
  // Round trip

  lemma {:induction false} TasksRoundTrip(tasks: seq<string>)
    ensures ParseTasks(TasksToJson(tasks)) == Success(tasks)
  {
    if tasks != [] {
      TasksRoundTrip(tasks[1..]);
      assert TasksToJson(tasks)[1..] == TasksToJson(tasks[1..]);
      assert [tasks[0]] + tasks[1..] == tasks;
    }
  }

  lemma {:induction false} DaysRoundTrip(days: seq<Day>)
    ensures ParseDays(DaysToJson(days)) == Success(days)
  {
    if days != [] {
      var d := days[0];
      TasksRoundTrip(d.tasks);
      assert ParseDay(DayToJson(d)) == Success(d);
      DaysRoundTrip(days[1..]);
      assert DaysToJson(days)[1..] == DaysToJson(days[1..]);
      assert [d] + days[1..] == days;
    }
  }

  /** Writing a Plan as JSON and checking it again gives back the same Plan. */
  lemma PlanRoundTrip(p: Plan)
    ensures IsPlanShaped(PlanToJson(p))
    ensures ParsePlan(PlanToJson(p)) == Success(p)
  {
    DaysRoundTrip(p.days);
  }

  /** Two accepted replies that describe the same days yield the same Plan: the
      Plan is determined by the labels and tasks alone, whatever other keys the
      reply carries. SamePlanSameDays is the converse. */
  lemma ParsePlanDeterminedByDays(j1: Json, j2: Json)
    requires ParsePlan(j1).Success? && ParsePlan(j2).Success?
    requires |j1.fields["days"].items| == |j2.fields["days"].items|
    requires forall i :: 0 <= i < |j1.fields["days"].items| ==>
               j1.fields["days"].items[i].fields["day"] == j2.fields["days"].items[i].fields["day"] &&
               j1.fields["days"].items[i].fields["tasks"] == j2.fields["days"].items[i].fields["tasks"]
    ensures ParsePlan(j1) == ParsePlan(j2)
  {
    var p1, p2 := ParsePlan(j1).value, ParsePlan(j2).value;
    assert |p1.days| == |p2.days|;
    forall i | 0 <= i < |p1.days| ensures p1.days[i] == p2.days[i] {
      var d1, d2 := j1.fields["days"].items[i], j2.fields["days"].items[i];
      assert Describes(d1, p1.days[i]) && Describes(d2, p2.days[i]);
      var t1, t2 := p1.days[i].tasks, p2.days[i].tasks;
      assert |t1| == |t2|;
      forall k | 0 <= k < |t1| ensures t1[k] == t2[k] {
        assert d1.fields["tasks"].items[k] == JString(t1[k]);
      }
    }
    assert p1.days == p2.days;
  }

  /** Two accepted replies that yield the same Plan carry the same `day` and
      `tasks` values in every element. */
  lemma SamePlanSameDays(j1: Json, j2: Json)
    requires ParsePlan(j1).Success? && ParsePlan(j1) == ParsePlan(j2)
    ensures |j1.fields["days"].items| == |j2.fields["days"].items|
    ensures forall i :: 0 <= i < |j1.fields["days"].items| ==>
              j1.fields["days"].items[i].fields["day"] == j2.fields["days"].items[i].fields["day"] &&
              j1.fields["days"].items[i].fields["tasks"] == j2.fields["days"].items[i].fields["tasks"]
  {
    var p := ParsePlan(j1).value;
    forall i | 0 <= i < |j1.fields["days"].items|
      ensures j1.fields["days"].items[i].fields["day"] == j2.fields["days"].items[i].fields["day"]
      ensures j1.fields["days"].items[i].fields["tasks"] == j2.fields["days"].items[i].fields["tasks"]
    {
      var d1, d2 := j1.fields["days"].items[i], j2.fields["days"].items[i];
      assert Describes(d1, p.days[i]) && Describes(d2, p.days[i]);
      assert d1.fields["tasks"].items == d2.fields["tasks"].items;
    }
  }
}

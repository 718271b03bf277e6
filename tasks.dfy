/** The task endpoints: patching and completing a task, the overdue filter, and the
    tasks and recommendations built from the model's insights for a pregnancy week.
    The task database is abstract: a query sees the sequence of stored tasks, and a
    lookup by id is the task it found, if any. Timestamps are in seconds. */
module Tasks {
  import opened Wrappers
  import opened Values
  import opened Seqs
  import UserProfile
  import MemoryManager
  import Ai

  const SecondsPerDay := 86400

  /** Every failure of an endpoint, a missing task or user included, is reported as
      this internal error. */
  const InternalError := "Internal server error"

  /** A task as `task.dict()` gives it. */
  datatype TaskData = TaskData(
    taskId: string,
    userId: string,
    title: string,
    description: string,
    taskType: string,
    dueDate: Option<int>,
    completed: bool,
    priority: int,
    metadata: Metadata)

  /** The optional fields of a patch; `None` leaves a field as it is. */
  datatype TaskUpdate = TaskUpdate(
    completed: Option<bool>,
    title: Option<string>,
    description: Option<string>,
    dueDate: Option<int>,
    priority: Option<int>)

  /** A task, whose fields the endpoints assign in place. */
  class Task {
    var taskId: string
    var userId: string
    var title: string
    var description: string
    var taskType: string
    var dueDate: Option<int>
    var completed: bool
    var priority: int
    var metadata: Metadata

    /** A task with the given fields, not yet completed. */
    constructor (d: TaskData)
      ensures AsData() == d
    {
      taskId := d.taskId;
      userId := d.userId;
      title := d.title;
      description := d.description;
      taskType := d.taskType;
      dueDate := d.dueDate;
      completed := d.completed;
      priority := d.priority;
      metadata := d.metadata;
    }

    /** `task.dict()`. */
    function AsData(): TaskData
      reads this
    {
      TaskData(taskId, userId, title, description, taskType, dueDate, completed, priority, metadata)
    }

    /** The field assignments of `update_task`: each field with a value in `u` takes
        it, and nothing else changes. */
    method Patch(u: TaskUpdate)
      modifies this
      ensures AsData() == Patched(old(AsData()), u)
    {
      if u.completed.Some? {
        completed := u.completed.value;
      }
      if u.title.Some? {
        title := u.title.value;
      }
      if u.description.Some? {
        description := u.description.value;
      }
      if u.dueDate.Some? {
        dueDate := u.dueDate;
      }
      if u.priority.Some? {
        priority := u.priority.value;
      }
    }

    /** The assignment of `complete_task`. */
    method Complete()
      modifies this
      ensures AsData() == old(AsData()).(completed := true)
    {
      completed := true;
    }
  }

  /** A task's fields after a patch. */
  function Patched(d: TaskData, u: TaskUpdate): TaskData {
    d.(completed := u.completed.GetOr(d.completed),
       title := u.title.GetOr(d.title),
       description := u.description.GetOr(d.description),
       dueDate := if u.dueDate.Some? then u.dueDate else d.dueDate,
       priority := u.priority.GetOr(d.priority))
  }

  /** A patch sets exactly the fields it carries; the id, owner, type and metadata never
      change. */
  lemma PatchedFields(d: TaskData, u: TaskUpdate)
    ensures Patched(d, u).taskId == d.taskId && Patched(d, u).userId == d.userId
    ensures Patched(d, u).taskType == d.taskType && Patched(d, u).metadata == d.metadata
    ensures u.completed.Some? ==> Patched(d, u).completed == u.completed.value
    ensures u.completed.None? ==> Patched(d, u).completed == d.completed
    ensures u.title.Some? ==> Patched(d, u).title == u.title.value
    ensures u.title.None? ==> Patched(d, u).title == d.title
    ensures u.description.Some? ==> Patched(d, u).description == u.description.value
    ensures u.description.None? ==> Patched(d, u).description == d.description
    ensures u.dueDate.Some? ==> Patched(d, u).dueDate == u.dueDate
    ensures u.dueDate.None? ==> Patched(d, u).dueDate == d.dueDate
    ensures u.priority.Some? ==> Patched(d, u).priority == u.priority.value
    ensures u.priority.None? ==> Patched(d, u).priority == d.priority
  {
  }

  /** Patching twice with the same update changes nothing more, and an empty update
      changes nothing. */
  lemma PatchedIdempotent(d: TaskData, u: TaskUpdate)
    ensures Patched(Patched(d, u), u) == Patched(d, u)
    ensures Patched(d, TaskUpdate(None, None, None, None, None)) == d
  {
  }

  /** `task.dict()`: every field of the task under its name. */
  function TaskDict(d: TaskData): Value {
    Dict(map["task_id" := Str(d.taskId), "user_id" := Str(d.userId), "title" := Str(d.title),
             "description" := Str(d.description), "task_type" := Str(d.taskType),
             "due_date" := (if d.dueDate.Some? then Time(d.dueDate.value) else Null),
             "completed" := Bool(d.completed), "priority" := Int(d.priority), "metadata" := Dict(d.metadata)])
  }

  /** The memory the task endpoints write about a task. */
  function TaskMetadata(taskType: string, insights: Ai.Reply): Metadata {
    map["task_type" := Str(taskType), "ai_insights" := Dict(insights)]
  }

  /** `update_task`: patches the found task, asks the model about it and writes an
      "Updated task" memory. Without a task, or when the memory cannot be stored, the
      endpoint fails; the patch has then already been applied. */
  method UpdateTask(found: Option<Task>, u: TaskUpdate, store: MemoryManager.MemoryStore, ai: Ai.Model, now: int)
    returns (r: Result<Task, string>)
    requires store.Valid()
    modifies (if found.Some? then {found.value} else {}), store
    ensures store.Valid()
    ensures found.None? ==> r == Err(InternalError) && unchanged(store)
    ensures store.online == old(store.online) && store.conversations == old(store.conversations)
    ensures found.Some? && !store.online ==> store.memories == old(store.memories) && store.nextId == old(store.nextId)
    ensures found.Some? && store.online ==> store.nextId == old(store.nextId) + 1
    ensures found.Some? ==> found.value.AsData() == Patched(old(found.value.AsData()), u)
    ensures found.Some? ==> (r.Ok? <==> store.online)
    ensures r.Ok? ==> r.value == found.value
    ensures found.Some? && store.online ==>
      var t := found.value;
      store.memories == old(store.memories) + [MemoryManager.Memory(old(store.nextId), t.userId, "task",
        "Updated task: " + t.title,
        ai.write(Ai.EnhanceMemory(t.userId, "task", "Updated task: " + t.title,
          Some(TaskMetadata(t.taskType, ai.ask(Ai.TaskInsights(t.userId, TaskDict(t.AsData()), "task_updated")))))),
        0.5, TaskMetadata(t.taskType, ai.ask(Ai.TaskInsights(t.userId, TaskDict(t.AsData()), "task_updated"))), now, now)]
  {
    if found.None? {
      return Err(InternalError);
    }
    var task := found.value;
    task.Patch(u);
    var insights := ai.ask(Ai.TaskInsights(task.userId, TaskDict(task.AsData()), "task_updated"));
    var stored := store.StoreMemory(task.userId, "task", "Updated task: " + task.title, 0.5,
                                    Some(TaskMetadata(task.taskType, insights)), ai, now);
    if stored.Err? {
      return Err(InternalError);
    }
    r := Ok(task);
  }

  /** The answer of `complete_task`. */
  datatype Completion = Completion(message: string, insights: Ai.Reply)

  /** `complete_task`: marks the found task completed, asks the model about it and
      writes a "Completed task" memory. */
  method CompleteTask(found: Option<Task>, store: MemoryManager.MemoryStore, ai: Ai.Model, now: int)
    returns (r: Result<Completion, string>)
    requires store.Valid()
    modifies (if found.Some? then {found.value} else {}), store
    ensures store.Valid()
    ensures found.None? ==> r == Err(InternalError) && unchanged(store)
    ensures store.online == old(store.online) && store.conversations == old(store.conversations)
    ensures found.Some? && !store.online ==> store.memories == old(store.memories) && store.nextId == old(store.nextId)
    ensures found.Some? && store.online ==> store.nextId == old(store.nextId) + 1
    ensures found.Some? ==> found.value.AsData() == old(found.value.AsData()).(completed := true)
    ensures found.Some? ==> (r.Ok? <==> store.online)
    ensures r.Ok? ==> r.value == Completion("Task completed successfully",
      ai.ask(Ai.TaskInsights(found.value.userId, TaskDict(found.value.AsData()), "task_completed")))
    ensures found.Some? && store.online ==>
      var t := found.value;
      store.memories == old(store.memories) + [MemoryManager.Memory(old(store.nextId), t.userId, "task",
        "Completed task: " + t.title,
        ai.write(Ai.EnhanceMemory(t.userId, "task", "Completed task: " + t.title,
          Some(TaskMetadata(t.taskType, ai.ask(Ai.TaskInsights(t.userId, TaskDict(t.AsData()), "task_completed")))))),
        0.7, TaskMetadata(t.taskType, ai.ask(Ai.TaskInsights(t.userId, TaskDict(t.AsData()), "task_completed"))), now, now)]
  {
    if found.None? {
      return Err(InternalError);
    }
    var task := found.value;
    task.Complete();
    var insights := ai.ask(Ai.TaskInsights(task.userId, TaskDict(task.AsData()), "task_completed"));
    var stored := store.StoreMemory(task.userId, "task", "Completed task: " + task.title, 0.7,
                                    Some(TaskMetadata(task.taskType, insights)), ai, now);
    if stored.Err? {
      return Err(InternalError);
    }
    r := Ok(Completion("Task completed successfully", insights));
  }

  // ---------------------------------------------------------------------------
  // Queries

  /** The task belongs to the user and, when `completed` is given, its completion flag
      is that value. */
  predicate Selects(t: Task, userId: string, completed: Option<bool>)
    reads t
  {
    t.userId == userId && (completed.None? || t.completed == completed.value)
  }

  /** The task has a due date strictly before `now`. */
  predicate PastDue(t: Task, now: int)
    reads t
  {
    t.dueDate.Some? && t.dueDate.value < now
  }

  /** The stored tasks of a user, all of them or those whose completion flag is
      `completed`, in stored order. */
  function TasksOf(stored: seq<Task>, userId: string, completed: Option<bool>): (r: seq<Task>)
    reads stored
    ensures forall i :: 0 <= i < |r| ==> r[i] in stored && Selects(r[i], userId, completed)
    ensures forall i :: 0 <= i < |stored| && Selects(stored[i], userId, completed) ==> stored[i] in r
  {
    if stored == [] then []
    else
      var t := stored[|stored| - 1];
      TasksOf(stored[..|stored| - 1], userId, completed) + (if Selects(t, userId, completed) then [t] else [])
  }

  /** The tasks whose due date lies strictly before `now`; a task without a due date is
      never overdue. */
  function DueBefore(tasks: seq<Task>, now: int): (r: seq<Task>)
    reads tasks
    ensures forall i :: 0 <= i < |r| ==> r[i] in tasks && PastDue(r[i], now)
    ensures forall i :: 0 <= i < |tasks| && PastDue(tasks[i], now) ==> tasks[i] in r
    ensures |r| <= |tasks|
  {
    if tasks == [] then []
    else
      var t := tasks[|tasks| - 1];
      DueBefore(tasks[..|tasks| - 1], now) + (if PastDue(t, now) then [t] else [])
  }

  /** For each stored task, whether the query selects it. */
  function SelectMarks(stored: seq<Task>, userId: string, completed: Option<bool>): (m: seq<bool>)
    reads stored
    ensures |m| == |stored| && forall i :: 0 <= i < |stored| ==> m[i] == Selects(stored[i], userId, completed)
  {
    seq(|stored|, i requires 0 <= i < |stored| reads stored => Selects(stored[i], userId, completed))
  }

  /** For each stored task, whether it is one of the user's incomplete tasks past due. */
  function OverdueMarks(stored: seq<Task>, userId: string, now: int): (m: seq<bool>)
    reads stored
    ensures |m| == |stored|
    ensures forall i :: 0 <= i < |stored| ==> m[i] == (Selects(stored[i], userId, Some(false)) && PastDue(stored[i], now))
  {
    seq(|stored|, i requires 0 <= i < |stored| reads stored =>
      Selects(stored[i], userId, Some(false)) && PastDue(stored[i], now))
  }

  /** The query's tasks are the stored tasks at the selected positions, each once and in
      stored order. */
  lemma {:induction false} TasksOfInOrder(stored: seq<Task>, userId: string, completed: Option<bool>)
    ensures TasksOf(stored, userId, completed) == At(stored, Positions(SelectMarks(stored, userId, completed)))
  {
    if stored != [] {
      var n := |stored| - 1;
      TasksOfInOrder(stored[..n], userId, completed);
      AtPositionsSnoc(stored, SelectMarks(stored, userId, completed));
      assert SelectMarks(stored, userId, completed)[..n] == SelectMarks(stored[..n], userId, completed);
    }
  }

  lemma DueBeforeSnoc(tasks: seq<Task>, t: Task, now: int)
    ensures DueBefore(tasks + [t], now) == DueBefore(tasks, now) + (if PastDue(t, now) then [t] else [])
  {
    assert (tasks + [t])[..|tasks|] == tasks;
  }

  /** Filtering the query's tasks by due date equals selecting both conditions at once. */
  lemma {:induction false} OverdueInOrder(stored: seq<Task>, userId: string, now: int)
    ensures DueBefore(TasksOf(stored, userId, Some(false)), now) == At(stored, Positions(OverdueMarks(stored, userId, now)))
  {
    if stored != [] {
      var n := |stored| - 1;
      OverdueInOrder(stored[..n], userId, now);
      AtPositionsSnoc(stored, OverdueMarks(stored, userId, now));
      assert OverdueMarks(stored, userId, now)[..n] == OverdueMarks(stored[..n], userId, now);
      var selected := TasksOf(stored[..n], userId, Some(false));
      if Selects(stored[n], userId, Some(false)) {
        assert TasksOf(stored, userId, Some(false)) == selected + [stored[n]];
        DueBeforeSnoc(selected, stored[n], now);
      } else {
        assert TasksOf(stored, userId, Some(false)) == selected;
      }
    }
  }

  /** The answer of `get_overdue_tasks`. */
  datatype OverdueReport = OverdueReport(userId: string, overdueTasks: seq<Task>, count: nat)

  /** `get_overdue_tasks`: the user's incomplete tasks that are past due, each once and in
      stored order, and how many. */
  function GetOverdueTasks(stored: seq<Task>, userId: string, now: int): (r: OverdueReport)
    reads stored
    ensures r.userId == userId && r.count == |r.overdueTasks|
    ensures r.overdueTasks == At(stored, Positions(OverdueMarks(stored, userId, now)))
  {
    OverdueInOrder(stored, userId, now);
    var overdue := DueBefore(TasksOf(stored, userId, Some(false)), now);
    OverdueReport(userId, overdue, |overdue|)
  }

  // ---------------------------------------------------------------------------
  // Tasks and recommendations from the model's insights

  /** A week as an f-string renders an optional integer. */
  function WeekText(week: Option<int>): string {
    if week.Some? then IntToString(week.value) else "None"
  }

  /** The tasks `_generate_ai_tasks` builds from the insights `ins` for week `week`,
      at time `now`. */
  function AiTasks(userId: string, week: int, ins: Ai.Reply, now: int): seq<TaskData> {
    var meta := map["ai_generated" := Bool(true), "pregnancy_week" := Int(week)];
    (if TruthyAt(ins, "tests") then
       [TaskData("ai_task_" + IntToString(week) + "_tests", userId, "בדיקות שבוע " + IntToString(week),
                 GetText(ins, "tests", "בדיקות שגרתיות"), "medical_test", Some(now + 7 * SecondsPerDay),
                 false, 2, meta)]
     else [])
    + (if TruthyAt(ins, "recommendations") then
       [TaskData("ai_task_" + IntToString(week) + "_recommendations", userId, "המלצות שבוע " + IntToString(week),
                 GetText(ins, "recommendations", "המלצות בריאות"), "health_recommendation",
                 Some(now + 3 * SecondsPerDay), false, 1, meta)]
     else [])
  }

  /** At most two tasks, open, owned by the user and marked as generated for the week:
      a tests task (priority 2, due in seven days) exactly when the insights name tests,
      then a recommendations task (priority 1, due in three days) exactly when they give
      recommendations. */
  lemma AiTasksShape(userId: string, week: int, ins: Ai.Reply, now: int)
    ensures |AiTasks(userId, week, ins, now)| == (if TruthyAt(ins, "tests") then 1 else 0)
                                                 + (if TruthyAt(ins, "recommendations") then 1 else 0)
    ensures forall d :: d in AiTasks(userId, week, ins, now) ==>
      d.userId == userId && !d.completed && d.metadata["pregnancy_week"] == Int(week)
    ensures TruthyAt(ins, "tests") ==>
      var d := AiTasks(userId, week, ins, now)[0];
      d.taskType == "medical_test" && d.priority == 2 && d.dueDate == Some(now + 7 * SecondsPerDay)
    ensures TruthyAt(ins, "recommendations") ==>
      var d := AiTasks(userId, week, ins, now)[|AiTasks(userId, week, ins, now)| - 1];
      d.taskType == "health_recommendation" && d.priority == 1 && d.dueDate == Some(now + 3 * SecondsPerDay)
  {
  }

  /** `_generate_ai_tasks`: asks the model about the week and builds the tasks. */
  method GenerateAiTasks(userId: string, week: int, ai: Ai.Model, now: int) returns (tasks: seq<Task>)
    ensures var expected := AiTasks(userId, week, ai.ask(Ai.PregnancyWeekInsights(userId, Some(week), map["task_generation" := Bool(true)])), now);
      |tasks| == |expected| && forall i :: 0 <= i < |tasks| ==> tasks[i].AsData() == expected[i]
  {
    var ins := ai.ask(Ai.PregnancyWeekInsights(userId, Some(week), map["task_generation" := Bool(true)]));
    var meta := map["ai_generated" := Bool(true), "pregnancy_week" := Int(week)];
    tasks := [];
    if TruthyAt(ins, "tests") {
      var t := new Task(TaskData("ai_task_" + IntToString(week) + "_tests", userId, "בדיקות שבוע " + IntToString(week),
                                 GetText(ins, "tests", "בדיקות שגרתיות"), "medical_test", Some(now + 7 * SecondsPerDay),
                                 false, 2, meta));
      tasks := tasks + [t];
    }
    if TruthyAt(ins, "recommendations") {
      var t := new Task(TaskData("ai_task_" + IntToString(week) + "_recommendations", userId, "המלצות שבוע " + IntToString(week),
                                 GetText(ins, "recommendations", "המלצות בריאות"), "health_recommendation",
                                 Some(now + 3 * SecondsPerDay), false, 1, meta));
      tasks := tasks + [t];
    }
  }

  /** `get_user_tasks`: the user's stored tasks (filtered by `completed` when given),
      followed by the generated tasks when the profile's week is set and non-zero;
      without a profile the endpoint fails. */
  method GetUserTasks(profiles: UserProfile.ProfileStore, stored: seq<Task>, userId: string, completed: Option<bool>,
                      ai: Ai.Model, now: int) returns (r: Result<seq<Task>, string>)
    ensures r.Err? <==> profiles.Find(userId).None?
    ensures r.Err? ==> r.error == InternalError
    ensures r.Ok? ==> |r.value| >= |TasksOf(stored, userId, completed)|
    ensures r.Ok? ==> r.value[..|TasksOf(stored, userId, completed)|] == TasksOf(stored, userId, completed)
    ensures r.Ok? && !UserProfile.WeekGiven(profiles.Find(userId).value) ==> r.value == TasksOf(stored, userId, completed)
    ensures r.Ok? && UserProfile.WeekGiven(profiles.Find(userId).value) ==>
      var week := profiles.Find(userId).value.pregnancyWeek.value;
      var generated := r.value[|TasksOf(stored, userId, completed)|..];
      var expected := AiTasks(userId, week, ai.ask(Ai.PregnancyWeekInsights(userId, Some(week), map["task_generation" := Bool(true)])), now);
      |generated| == |expected| && forall i :: 0 <= i < |generated| ==> generated[i].AsData() == expected[i]
  {
    var found := profiles.Find(userId);
    if found.None? {
      return Err(InternalError);
    }
    var tasks := TasksOf(stored, userId, completed);
    if UserProfile.WeekGiven(found.value) {
      var generated := GenerateAiTasks(userId, found.value.pregnancyWeek.value, ai, now);
      assert (tasks + generated)[|tasks|..] == generated;
      tasks := tasks + generated;
    }
    r := Ok(tasks);
  }

  /** One recommendation of `_generate_task_recommendations`. */
  datatype Recommendation = Recommendation(kind: string, title: string, description: Value, priority: string, dueInDays: int)

  /** The recommendations built from the insights `ins` for the week. */
  function RecommendationsFrom(week: Option<int>, ins: Ai.Reply): seq<Recommendation> {
    (if TruthyAt(ins, "tests") then
       [Recommendation("medical_test", "בדיקות שבוע " + WeekText(week), ins["tests"], "high", 7)] else [])
    + (if TruthyAt(ins, "recommendations") then
       [Recommendation("health_recommendation", "המלצות בריאות שבוע " + WeekText(week), ins["recommendations"], "medium", 3)]
       else [])
    + (if TruthyAt(ins, "tips") then
       [Recommendation("tip", "טיפים שבוע " + WeekText(week), ins["tips"], "low", 1)] else [])
  }

  /** At most three recommendations, ordered by days until due, longest first; each kind
      is present exactly when its insight is, carries that insight as its description,
      and has its fixed priority and due time. */
  lemma RecommendationsShape(week: Option<int>, ins: Ai.Reply)
    ensures |RecommendationsFrom(week, ins)| <= 3
    ensures forall i, j :: 0 <= i < j < |RecommendationsFrom(week, ins)| ==>
      RecommendationsFrom(week, ins)[i].dueInDays > RecommendationsFrom(week, ins)[j].dueInDays
    ensures (exists r :: r in RecommendationsFrom(week, ins) && r.kind == "medical_test") <==> TruthyAt(ins, "tests")
    ensures (exists r :: r in RecommendationsFrom(week, ins) && r.kind == "health_recommendation") <==> TruthyAt(ins, "recommendations")
    ensures (exists r :: r in RecommendationsFrom(week, ins) && r.kind == "tip") <==> TruthyAt(ins, "tips")
    ensures forall r :: r in RecommendationsFrom(week, ins) ==>
      (r.kind == "medical_test" && r.priority == "high" && r.dueInDays == 7 && r.description == ins["tests"])
      || (r.kind == "health_recommendation" && r.priority == "medium" && r.dueInDays == 3 && r.description == ins["recommendations"])
      || (r.kind == "tip" && r.priority == "low" && r.dueInDays == 1 && r.description == ins["tips"])
  {
    var s := RecommendationsFrom(week, ins);
    if TruthyAt(ins, "tests") {
      assert s[0].kind == "medical_test";
    }
    if TruthyAt(ins, "recommendations") {
      var k := if TruthyAt(ins, "tests") then 1 else 0;
      assert s[k].kind == "health_recommendation";
    }
    if TruthyAt(ins, "tips") {
      assert s[|s| - 1].kind == "tip";
    }
  }

  /** `_generate_task_recommendations`: asks the model about the week and builds the
      recommendations. */
  method GenerateTaskRecommendations(userId: string, week: Option<int>, ai: Ai.Model) returns (recommendations: seq<Recommendation>)
    ensures recommendations == RecommendationsFrom(week,
      ai.ask(Ai.PregnancyWeekInsights(userId, week, map["task_recommendations" := Bool(true)])))
  {
    var ins := ai.ask(Ai.PregnancyWeekInsights(userId, week, map["task_recommendations" := Bool(true)]));
    recommendations := [];
    if TruthyAt(ins, "tests") {
      recommendations := recommendations + [Recommendation("medical_test", "בדיקות שבוע " + WeekText(week), ins["tests"], "high", 7)];
    }
    if TruthyAt(ins, "recommendations") {
      recommendations := recommendations
        + [Recommendation("health_recommendation", "המלצות בריאות שבוע " + WeekText(week), ins["recommendations"], "medium", 3)];
    }
    if TruthyAt(ins, "tips") {
      recommendations := recommendations + [Recommendation("tip", "טיפים שבוע " + WeekText(week), ins["tips"], "low", 1)];
    }
  }

  /** The answer of `get_task_recommendations`. */
  datatype RecommendationReport = RecommendationReport(
    userId: string, pregnancyWeek: Option<int>, recommendations: seq<Recommendation>, generatedAt: int)

  /** `get_task_recommendations`: fails without a profile; otherwise the recommendations
      for the profile's week, which may be unset. */
  method GetTaskRecommendations(profiles: UserProfile.ProfileStore, userId: string, ai: Ai.Model, now: int)
    returns (r: Result<RecommendationReport, string>)
    ensures r.Err? <==> profiles.Find(userId).None?
    ensures r.Err? ==> r.error == InternalError
    ensures r.Ok? ==>
      var week := profiles.Find(userId).value.pregnancyWeek;
      r.value == RecommendationReport(userId, week,
        RecommendationsFrom(week, ai.ask(Ai.PregnancyWeekInsights(userId, week, map["task_recommendations" := Bool(true)]))), now)
  {
    var found := profiles.Find(userId);
    if found.None? {
      return Err(InternalError);
    }
    var recommendations := GenerateTaskRecommendations(userId, found.value.pregnancyWeek, ai);
    r := Ok(RecommendationReport(userId, found.value.pregnancyWeek, recommendations, now));
  }
}

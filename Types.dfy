/** The task types and type guards of src/lib/types/index.ts, and the JavaScript objects
    that stand for a task, a create request and an update request. */
module Types {
  import opened Wrappers
  import opened Values

  /** The workflow states, spelled "todo", "in-progress" and "done". */
  datatype TaskStatus = Todo | InProgress | Done

  /** The priority levels, spelled "high", "medium" and "low". */
  datatype Priority = High | Medium | Low

  /** A work item on the board. Dates are millisecond timestamps; `None` is `null`. */
  datatype Task = Task(
    id: string,
    title: string,
    description: string,
    status: TaskStatus,
    priority: Priority,
    dueDate: Option<int>,
    createdAt: int,
    updatedAt: int,
    aiGenerated: bool,
    originalPrompt: Option<string>)

  /** What a caller of `addTask` supplies: a task without `id`, `createdAt`, `updatedAt`. */
  datatype TaskDraft = TaskDraft(
    title: string,
    description: string,
    status: TaskStatus,
    priority: Priority,
    dueDate: Option<int>,
    aiGenerated: bool,
    originalPrompt: Option<string>)

  /** What a caller of `updateTask` supplies: any of the task's fields except `id` and
      `createdAt`; `None` is a field the update does not carry. */
  datatype TaskPatch = TaskPatch(
    title: Option<string>,
    description: Option<string>,
    status: Option<TaskStatus>,
    priority: Option<Priority>,
    dueDate: Option<Option<int>>,
    updatedAt: Option<int>,
    aiGenerated: Option<bool>,
    originalPrompt: Option<Option<string>>)

  function StatusName(s: TaskStatus): string {
    match s
    case Todo => "todo"
    case InProgress => "in-progress"
    case Done => "done"
  }

  function PriorityName(p: Priority): string {
    match p
    case High => "high"
    case Medium => "medium"
    case Low => "low"
  }

  /** `isTaskStatus`: a string among the three status names; never a non-string. */
  predicate IsTaskStatus(v: Value)
    ensures IsTaskStatus(v) <==> v == Str("todo") || v == Str("in-progress") || v == Str("done")
    ensures !v.Str? ==> !IsTaskStatus(v)
  {
    v.Str? && v.s in ["todo", "in-progress", "done"]
  }

  /** `isPriority`: a string among the three priority names; never a non-string. */
  predicate IsPriority(v: Value)
    ensures IsPriority(v) <==> v == Str("high") || v == Str("medium") || v == Str("low")
    ensures !v.Str? ==> !IsPriority(v)
  {
    v.Str? && v.s in ["high", "medium", "low"]
  }

  /** The status a value that passes `isTaskStatus` narrows to. */
  function StatusOf(v: Value): (r: Option<TaskStatus>)
    ensures r.Some? <==> IsTaskStatus(v)
    ensures r.Some? ==> v == Str(StatusName(r.value))
  {
    if v == Str("todo") then Some(Todo)
    else if v == Str("in-progress") then Some(InProgress)
    else if v == Str("done") then Some(Done)
    else None
  }

  /** The priority a value that passes `isPriority` narrows to. */
  function PriorityOf(v: Value): (r: Option<Priority>)
    ensures r.Some? <==> IsPriority(v)
    ensures r.Some? ==> v == Str(PriorityName(r.value))
  {
    if v == Str("high") then Some(High)
    else if v == Str("medium") then Some(Medium)
    else if v == Str("low") then Some(Low)
    else None
  }

  /** Every status name passes the guard and narrows back to its status. */
  lemma StatusNames(s: TaskStatus)
    ensures IsTaskStatus(Str(StatusName(s))) && StatusOf(Str(StatusName(s))) == Some(s)
  {
  }

  /** Every priority name passes the guard and narrows back to its priority. */
  lemma PriorityNames(p: Priority)
    ensures IsPriority(Str(PriorityName(p))) && PriorityOf(Str(PriorityName(p))) == Some(p)
  {
  }

  // ---------------------------------------------------------------------------
  // The JavaScript values of tasks, drafts and patches
  // ---------------------------------------------------------------------------

  function DateOrNull(d: Option<int>): Value {
    match d
    case None => Null
    case Some(ms) => Date(ms)
  }

  function StringOrNull(s: Option<string>): Value {
    match s
    case None => Null
    case Some(text) => Str(text)
  }

  /** The object a task is at run time. */
  function TaskValue(t: Task): Value {
    Obj(map[
      "id" := Str(t.id),
      "title" := Str(t.title),
      "description" := Str(t.description),
      "status" := Str(StatusName(t.status)),
      "priority" := Str(PriorityName(t.priority)),
      "dueDate" := DateOrNull(t.dueDate),
      "createdAt" := Date(t.createdAt),
      "updatedAt" := Date(t.updatedAt),
      "aiGenerated" := Bool(t.aiGenerated),
      "originalPrompt" := StringOrNull(t.originalPrompt)])
  }

  /** The object a create request is at run time. */
  function DraftValue(d: TaskDraft): Value {
    Obj(map[
      "title" := Str(d.title),
      "description" := Str(d.description),
      "status" := Str(StatusName(d.status)),
      "priority" := Str(PriorityName(d.priority)),
      "dueDate" := DateOrNull(d.dueDate),
      "aiGenerated" := Bool(d.aiGenerated),
      "originalPrompt" := StringOrNull(d.originalPrompt)])
  }

  /** Adds `key: value` to an object when the patch carries the field. */
  function WithField<T>(m: map<string, Value>, key: string, field: Option<T>, encode: T -> Value): map<string, Value> {
    match field
    case None => m
    case Some(x) => m[key := encode(x)]
  }

  /** `{ id, ...updates }`: the object `updateTask` validates. */
  function PatchValue(id: string, p: TaskPatch): Value {
    var m := map["id" := Str(id)];
    var m := WithField(m, "title", p.title, s => Str(s));
    var m := WithField(m, "description", p.description, s => Str(s));
    var m := WithField(m, "status", p.status, s => Str(StatusName(s)));
    var m := WithField(m, "priority", p.priority, q => Str(PriorityName(q)));
    var m := WithField(m, "dueDate", p.dueDate, DateOrNull);
    var m := WithField(m, "updatedAt", p.updatedAt, ms => Date(ms));
    var m := WithField(m, "aiGenerated", p.aiGenerated, b => Bool(b));
    var m := WithField(m, "originalPrompt", p.originalPrompt, StringOrNull);
    Obj(m)
  }
}

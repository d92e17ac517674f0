/** The task store of src/lib/stores/tasks.ts: the list callbacks it hands to the Svelte
    stores, the localStorage encoding, and the store itself as a class whose fields are the
    module's writable stores, its auto-save subscription and the browser's storage slot. */
module TaskStore {
  import opened Wrappers
  import opened Values
  import opened Schemas
  import opened SchemaProperties
  import opened Types
  import opened TaskValidation

  // ---------------------------------------------------------------------------
  // Array.prototype.filter
  // ---------------------------------------------------------------------------

  /** The elements of `s` that `keep` accepts, in their order. */
  function Filter<T(!new)>(s: seq<T>, keep: T -> bool): (r: seq<T>)
    ensures |r| <= |s|
    ensures forall x :: x in r <==> x in s && keep(x)
    ensures forall i :: 0 <= i < |r| ==> keep(r[i])
  {
    if s == [] then []
    else if keep(s[0]) then [s[0]] + Filter(s[1..], keep)
    else Filter(s[1..], keep)
  }

  /** Filtering a concatenation filters each part. */
  lemma {:induction false} FilterConcat<T(!new)>(a: seq<T>, b: seq<T>, keep: T -> bool)
    ensures Filter(a + b, keep) == Filter(a, keep) + Filter(b, keep)
  {
    if a == [] {
      assert a + b == b;
    } else {
      assert (a + b)[0] == a[0];
      assert (a + b)[1..] == a[1..] + b;
      FilterConcat(a[1..], b, keep);
    }
  }

  /** A filter that keeps everything returns its input. */
  lemma {:induction false} FilterKeepsAll<T(!new)>(s: seq<T>, keep: T -> bool)
    requires forall i :: 0 <= i < |s| ==> keep(s[i])
    ensures Filter(s, keep) == s
  {
    if s != [] {
      FilterKeepsAll(s[1..], keep);
    }
  }

  /** Filtering twice with the same test is filtering once. */
  lemma FilterTwice<T(!new)>(s: seq<T>, keep: T -> bool)
    ensures Filter(Filter(s, keep), keep) == Filter(s, keep)
  {
    FilterKeepsAll(Filter(s, keep), keep);
  }

  // ---------------------------------------------------------------------------
  // The derived stores: todoTasks, inProgressTasks, doneTasks
  // ---------------------------------------------------------------------------

  /** The tasks whose status is `s`, in board order. */
  function WithStatus(ts: seq<Task>, s: TaskStatus): (r: seq<Task>)
    ensures forall t :: t in r <==> t in ts && t.status == s
  {
    Filter(ts, (t: Task) => t.status == s)
  }

  lemma WithStatusCons(ts: seq<Task>, s: TaskStatus)
    requires ts != []
    ensures WithStatus(ts, s) == (if ts[0].status == s then [ts[0]] else []) + WithStatus(ts[1..], s)
  {
  }

  lemma ColumnHead(ts: seq<Task>, s: TaskStatus)
    requires ts != []
    ensures ts[0].status == s ==>
      multiset(WithStatus(ts, s)) == multiset{ts[0]} + multiset(WithStatus(ts[1..], s))
    ensures ts[0].status != s ==> multiset(WithStatus(ts, s)) == multiset(WithStatus(ts[1..], s))
  {
    WithStatusCons(ts, s);
  }

  lemma MultisetHead(ts: seq<Task>)
    requires ts != []
    ensures multiset(ts) == multiset{ts[0]} + multiset(ts[1..])
  {
    assert ts == [ts[0]] + ts[1..];
  }

  /** The three columns split the board: every task is in exactly one of them. */
  lemma {:induction false} ColumnsPartition(ts: seq<Task>)
    ensures multiset(WithStatus(ts, Todo)) + multiset(WithStatus(ts, InProgress)) +
            multiset(WithStatus(ts, Done)) == multiset(ts)
  {
    if ts != [] {
      ColumnsPartition(ts[1..]);
      ColumnHead(ts, Todo);
      ColumnHead(ts, InProgress);
      ColumnHead(ts, Done);
      MultisetHead(ts);
    }
  }

  /** The three column lengths add up to the number of tasks. */
  lemma ColumnsCount(ts: seq<Task>)
    ensures |WithStatus(ts, Todo)| + |WithStatus(ts, InProgress)| + |WithStatus(ts, Done)| == |ts|
  {
    ColumnsPartition(ts);
    assert |multiset(ts)| == |ts|;
  }

  /** Appending a task adds it to the end of its own column and leaves the others alone. */
  lemma ColumnsAfterAppend(ts: seq<Task>, t: Task, s: TaskStatus)
    ensures WithStatus(ts + [t], s) == WithStatus(ts, s) + (if t.status == s then [t] else [])
  {
    FilterConcat(ts, [t], (u: Task) => u.status == s);
  }

  // ---------------------------------------------------------------------------
  // The callbacks of addTask, updateTask and deleteTask
  // ---------------------------------------------------------------------------

  /** `{ ...taskData, id, createdAt, updatedAt }`. */
  function NewTask(d: TaskDraft, id: string, createdAt: int, updatedAt: int): (t: Task)
    ensures t.id == id && t.createdAt == createdAt && t.updatedAt == updatedAt
    ensures forall k :: k in DraftValue(d).fields ==> TaskValue(t).fields[k] == DraftValue(d).fields[k]
  {
    Task(id, d.title, d.description, d.status, d.priority, d.dueDate, createdAt, updatedAt,
         d.aiGenerated, d.originalPrompt)
  }

  function Overlay<T>(update: Option<T>, current: T): T {
    match update
    case Some(x) => x
    case None => current
  }

  /** `{ ...task, ...updates, updatedAt: new Date() }` with the clock reading `now`: the id and
      `createdAt` survive, `updatedAt` is the new reading whatever the patch says, and every
      other field takes the patch's value when the patch carries it. */
  function ApplyPatch(t: Task, p: TaskPatch, now: int): (r: Task)
    ensures r.id == t.id && r.createdAt == t.createdAt && r.updatedAt == now
    ensures p.title.Some? ==> r.title == p.title.value
    ensures p.title.None? ==> r.title == t.title
    ensures p.description.Some? ==> r.description == p.description.value
    ensures p.description.None? ==> r.description == t.description
    ensures p.status.Some? ==> r.status == p.status.value
    ensures p.status.None? ==> r.status == t.status
    ensures p.priority.Some? ==> r.priority == p.priority.value
    ensures p.priority.None? ==> r.priority == t.priority
    ensures p.dueDate.Some? ==> r.dueDate == p.dueDate.value
    ensures p.dueDate.None? ==> r.dueDate == t.dueDate
    ensures p.aiGenerated.Some? ==> r.aiGenerated == p.aiGenerated.value
    ensures p.aiGenerated.None? ==> r.aiGenerated == t.aiGenerated
    ensures p.originalPrompt.Some? ==> r.originalPrompt == p.originalPrompt.value
    ensures p.originalPrompt.None? ==> r.originalPrompt == t.originalPrompt
  {
    Task(t.id,
         Overlay(p.title, t.title),
         Overlay(p.description, t.description),
         Overlay(p.status, t.status),
         Overlay(p.priority, t.priority),
         Overlay(p.dueDate, t.dueDate),
         t.createdAt,
         now,
         Overlay(p.aiGenerated, t.aiGenerated),
         Overlay(p.originalPrompt, t.originalPrompt))
  }

  lemma ApplyPatchKeepsKeys(t: Task, p: TaskPatch, now: int)
    ensures var r, o := TaskValue(ApplyPatch(t, p, now)).fields, TaskValue(t).fields;
      r.Keys == o.Keys && r["updatedAt"] == Date(now) && r["id"] == o["id"] && r["createdAt"] == o["createdAt"]
  {
  }

  lemma ApplyPatchField(t: Task, p: TaskPatch, now: int, k: string)
    requires k in TaskValue(t).fields && k != "updatedAt"
    ensures var r, o, u := TaskValue(ApplyPatch(t, p, now)).fields, TaskValue(t).fields, PatchValue(t.id, p).fields;
      r[k] == if k in u then u[k] else o[k]
  {
    PatchId(t.id, p);
    if k == "title" {
      PatchTitle(t.id, p);
    } else if k == "description" {
      PatchDescription(t.id, p);
    } else if k == "status" {
      PatchStatus(t.id, p);
    } else if k == "priority" {
      PatchPriority(t.id, p);
    } else if k == "dueDate" {
      PatchDueDate(t.id, p);
    } else if k == "aiGenerated" {
      PatchAiGenerated(t.id, p);
    } else if k == "originalPrompt" {
      PatchOriginalPrompt(t.id, p);
    }
  }

  /** The patched task, as an object, is the old object overwritten by the update object
      `{ id, ...updates }` and then by `updatedAt: now`: the id and `createdAt` survive, and
      an `updatedAt` the caller passes is overridden. */
  lemma ApplyPatchSpreads(t: Task, p: TaskPatch, now: int)
    ensures var r, o, u := TaskValue(ApplyPatch(t, p, now)).fields, TaskValue(t).fields, PatchValue(t.id, p).fields;
      r.Keys == o.Keys &&
      r["updatedAt"] == Date(now) &&
      r["id"] == o["id"] && r["createdAt"] == o["createdAt"] &&
      forall k :: k in r && k != "updatedAt" ==> r[k] == if k in u then u[k] else o[k]
  {
    ApplyPatchKeepsKeys(t, p, now);
    var r, o, u := TaskValue(ApplyPatch(t, p, now)).fields, TaskValue(t).fields, PatchValue(t.id, p).fields;
    forall k | k in r && k != "updatedAt" ensures r[k] == if k in u then u[k] else o[k] {
      ApplyPatchField(t, p, now, k);
    }
  }

  /** Applying the same patch at the same instant twice is applying it once. */
  lemma ApplyPatchTwice(t: Task, p: TaskPatch, now: int)
    ensures ApplyPatch(ApplyPatch(t, p, now), p, now) == ApplyPatch(t, p, now)
  {
  }

  /** A conforming task stays conforming under a patch whose fields pass the update schema. */
  lemma ApplyPatchConforms(t: Task, p: TaskPatch, now: int)
    requires TaskConforms(t) && PatchConforms(t.id, p)
    ensures TaskConforms(ApplyPatch(t, p, now))
  {
  }

  /** `currentTasks.map(task => task.id === id ? patched : task)`. */
  function Merged(ts: seq<Task>, id: string, p: TaskPatch, now: int): (r: seq<Task>)
    ensures |r| == |ts|
    ensures forall i :: 0 <= i < |ts| ==> r[i].id == ts[i].id && r[i].createdAt == ts[i].createdAt
    ensures forall i :: 0 <= i < |ts| && ts[i].id != id ==> r[i] == ts[i]
    ensures forall i :: 0 <= i < |ts| && ts[i].id == id ==> r[i] == ApplyPatch(ts[i], p, now) && r[i].updatedAt == now
  {
    seq(|ts|, i requires 0 <= i < |ts| => if ts[i].id == id then ApplyPatch(ts[i], p, now) else ts[i])
  }

  /** An update of an id no task has leaves the list as it was. */
  lemma MergedMissingId(ts: seq<Task>, id: string, p: TaskPatch, now: int)
    requires forall t :: t in ts ==> t.id != id
    ensures Merged(ts, id, p, now) == ts
  {
  }

  /** A list of conforming tasks stays conforming under a patch that passes the update schema. */
  lemma MergedConforms(ts: seq<Task>, id: string, p: TaskPatch, now: int)
    requires forall t :: t in ts ==> TaskConforms(t)
    requires PatchConforms(id, p)
    ensures forall t :: t in Merged(ts, id, p, now) ==> TaskConforms(t)
  {
    var r := Merged(ts, id, p, now);
    forall t | t in r ensures TaskConforms(t) {
      var i :| 0 <= i < |r| && r[i] == t;
      assert ts[i] in ts;
      if ts[i].id == id {
        ApplyPatchConforms(ts[i], p, now);
      }
    }
  }

  /** `currentTasks.filter(task => task.id !== id)`. */
  function WithoutId(ts: seq<Task>, id: string): (r: seq<Task>)
    ensures forall t :: t in r <==> t in ts && t.id != id
    ensures |r| <= |ts|
  {
    Filter(ts, (t: Task) => t.id != id)
  }

  /** Deleting from a concatenation deletes from each part, so the remaining tasks keep
      their relative order. */
  lemma WithoutIdConcat(a: seq<Task>, b: seq<Task>, id: string)
    ensures WithoutId(a + b, id) == WithoutId(a, id) + WithoutId(b, id)
  {
    FilterConcat(a, b, (t: Task) => t.id != id);
  }

  /** Deleting twice is deleting once. */
  lemma DeleteTwice(ts: seq<Task>, id: string)
    ensures WithoutId(WithoutId(ts, id), id) == WithoutId(ts, id)
  {
    FilterTwice(ts, (t: Task) => t.id != id);
  }

  /** Deleting an id no task has leaves the list as it was. */
  lemma DeleteMissingId(ts: seq<Task>, id: string)
    requires forall t :: t in ts ==> t.id != id
    ensures WithoutId(ts, id) == ts
  {
    FilterKeepsAll(ts, (t: Task) => t.id != id);
  }

  /** An id that is not a UUID, such as the "task-001" of the sample data, fails validation
      whatever the update carries. */
  lemma NonUuidIdRejected(id: string, p: TaskPatch)
    requires !IsUuid(id)
    ensures ParseUpdateTaskRequest(PatchValue(id, p)).Err?
  {
    UpdateSchemaOnPatch(id, p);
  }

  lemma SampleIdRejected(p: TaskPatch)
    ensures ParseUpdateTaskRequest(PatchValue("task-001", p)).Err?
  {
    UuidExamples();
    NonUuidIdRejected("task-001", p);
  }

  // ---------------------------------------------------------------------------
  // localStorage under the key "kanban_tasks"
  // ---------------------------------------------------------------------------

  /** The ISO-8601 text `JSON.stringify` writes for a date, identified by the instant it names. */
  datatype IsoDate = IsoDate(ms: int)

  /** A task as `JSON.parse` gives it back: its dates are ISO strings. */
  datatype StoredTask = StoredTask(
    id: string,
    title: string,
    description: string,
    status: TaskStatus,
    priority: Priority,
    dueDate: Option<IsoDate>,
    createdAt: IsoDate,
    updatedAt: IsoDate,
    aiGenerated: bool,
    originalPrompt: Option<string>)

  /** What `localStorage.getItem("kanban_tasks")` finds: nothing (`null`), the empty string,
      text on which `JSON.parse` or the following `.map` throws (or a read that throws), or
      the JSON of an array of tasks. */
  datatype Blob = Absent | Blank | Corrupt | Saved(records: seq<StoredTask>)

  function Stored(t: Task): StoredTask {
    StoredTask(t.id, t.title, t.description, t.status, t.priority,
               match t.dueDate case None => None case Some(ms) => Some(IsoDate(ms)),
               IsoDate(t.createdAt), IsoDate(t.updatedAt), t.aiGenerated, t.originalPrompt)
  }

  /** `{ ...task, createdAt: new Date(..), updatedAt: new Date(..), dueDate: task.dueDate ? new Date(..) : null }`. */
  function Revived(r: StoredTask): Task {
    Task(r.id, r.title, r.description, r.status, r.priority,
         match r.dueDate case None => None case Some(d) => Some(d.ms),
         r.createdAt.ms, r.updatedAt.ms, r.aiGenerated, r.originalPrompt)
  }

  /** `JSON.stringify(tasks)`, read back as records. */
  function Serialize(ts: seq<Task>): (r: seq<StoredTask>)
    ensures |r| == |ts|
    ensures forall i :: 0 <= i < |ts| ==> r[i] == Stored(ts[i])
  {
    if ts == [] then [] else [Stored(ts[0])] + Serialize(ts[1..])
  }

  /** The `parsedTasks.map(..)` of `loadTasksFromLocalStorage`. */
  function Restore(rs: seq<StoredTask>): (r: seq<Task>)
    ensures |r| == |rs|
    ensures forall i :: 0 <= i < |rs| ==> r[i] == Revived(rs[i])
  {
    if rs == [] then [] else [Revived(rs[0])] + Restore(rs[1..])
  }

  /** Loading what was saved gives back the same tasks. */
  lemma {:induction false} RestoreSerialize(ts: seq<Task>)
    ensures Restore(Serialize(ts)) == ts
  {
    if ts != [] {
      RestoreSerialize(ts[1..]);
    }
  }

  /** Saving what was loaded writes the same records. */
  lemma {:induction false} SerializeRestore(rs: seq<StoredTask>)
    ensures Serialize(Restore(rs)) == rs
  {
    if rs != [] {
      SerializeRestore(rs[1..]);
    }
  }

  /** The slot after `localStorage.setItem(STORAGE_KEY, JSON.stringify(ts))`; a write that
      throws is swallowed and leaves the slot as it was. */
  function AfterWrite(b: Blob, ts: seq<Task>, writeFails: bool): (r: Blob)
    ensures writeFails ==> r == b
    ensures !writeFails ==> r.Saved? && Restore(r.records) == ts
  {
    RestoreSerialize(ts);
    if writeFails then b else Saved(Serialize(ts))
  }

  /** The slot after the tasks store notifies its subscribers: only the auto-save
      subscription writes. */
  function AfterNotify(b: Blob, ts: seq<Task>, autoSave: bool, writeFails: bool): (r: Blob)
    ensures !autoSave || writeFails ==> r == b
    ensures autoSave && !writeFails ==> r.Saved? && Restore(r.records) == ts
  {
    if autoSave then AfterWrite(b, ts, writeFails) else b
  }

  /** The tasks after `loadTasksFromLocalStorage` finds `b` while the store holds `ts`. */
  function Loaded(b: Blob, ts: seq<Task>): (r: seq<Task>)
    ensures b.Absent? || b.Blank? ==> r == ts
    ensures b.Corrupt? ==> r == []
    ensures b.Saved? ==> |r| == |b.records| && Serialize(r) == b.records
  {
    match b
    case Absent => ts
    case Blank => ts
    case Corrupt => []
    case Saved(rs) => SerializeRestore(rs); Restore(rs)
  }

  /** A load after a successful save restores the saved tasks, whatever the store holds then. */
  lemma LoadAfterSave(b: Blob, saved: seq<Task>, current: seq<Task>)
    ensures Loaded(AfterWrite(b, saved, false), current) == saved
  {
  }

  /** With auto-save on, the write that follows a successful load puts back the very records
      it read. */
  lemma LoadedWriteBack(rs: seq<StoredTask>, writeFails: bool)
    ensures AfterNotify(Saved(rs), Loaded(Saved(rs), []), true, writeFails) == Saved(rs)
  {
    SerializeRestore(rs);
  }

  // ---------------------------------------------------------------------------
  // The store
  // ---------------------------------------------------------------------------

  /** The module's state: the `tasks` store, the three modal stores, whether the auto-save
      subscription exists, and the browser's storage slot under "kanban_tasks" together with
      whether writing to it throws (a full quota, a disabled storage). */
  class TaskStore {
    var tasks: seq<Task>
    var isTaskModalOpen: bool
    var isTaskEditModalOpen: bool
    var editingTaskId: Option<string>
    var autoSaveActive: bool
    var storage: Blob
    var writeFails: bool

    /** The stores as the module initialises them, in a browser whose storage holds `stored`. */
    constructor(stored: Blob, failing: bool)
      ensures tasks == [] && !isTaskModalOpen && !isTaskEditModalOpen && editingTaskId == None
      ensures !autoSaveActive && storage == stored && writeFails == failing
    {
      tasks := [];
      isTaskModalOpen := false;
      isTaskEditModalOpen := false;
      editingTaskId := None;
      autoSaveActive := false;
      storage := stored;
      writeFails := failing;
    }

    /** The tasks are what the storage slot holds. */
    predicate Persisted()
      reads this
    {
      storage.Saved? && Restore(storage.records) == tasks
    }

    twostate predicate ModalsUnchanged()
      reads this
    {
      isTaskModalOpen == old(isTaskModalOpen) && isTaskEditModalOpen == old(isTaskEditModalOpen) &&
      editingTaskId == old(editingTaskId)
    }

    function TodoTasks(): (r: seq<Task>)
      reads this
      ensures forall t :: t in r <==> t in tasks && t.status == Todo
    {
      WithStatus(tasks, Todo)
    }

    function InProgressTasks(): (r: seq<Task>)
      reads this
      ensures forall t :: t in r <==> t in tasks && t.status == InProgress
    {
      WithStatus(tasks, InProgress)
    }

    function DoneTasks(): (r: seq<Task>)
      reads this
      ensures forall t :: t in r <==> t in tasks && t.status == Done
    {
      WithStatus(tasks, Done)
    }

    /** `tasks.set` / `tasks.update`: a new array reaches every subscriber. */
    method SetTasks(ts: seq<Task>)
      modifies this
      ensures tasks == ts
      ensures storage == AfterNotify(old(storage), ts, autoSaveActive, writeFails)
      ensures autoSaveActive == old(autoSaveActive) && writeFails == old(writeFails)
      ensures ModalsUnchanged()
    {
      tasks := ts;
      if autoSaveActive && !writeFails {
        storage := Saved(Serialize(ts));
      }
    }

    /** `addTask`: no validation; the given id and clock readings stand for
        `crypto.randomUUID()` and the two `new Date()` calls. */
    method AddTask(draft: TaskDraft, id: string, createdAt: int, updatedAt: int) returns (t: Task)
      modifies this
      ensures t == NewTask(draft, id, createdAt, updatedAt)
      ensures tasks == old(tasks) + [t]
      ensures storage == AfterNotify(old(storage), tasks, autoSaveActive, writeFails)
      ensures autoSaveActive == old(autoSaveActive) && writeFails == old(writeFails)
      ensures ModalsUnchanged()
    {
      t := NewTask(draft, id, createdAt, updatedAt);
      SetTasks(tasks + [t]);
    }

    /** `updateTask`: validates `{ id, ...updates }` and then rewrites the matching tasks,
        with `now` the clock reading. A failed validation is the thrown
        "Task update validation failed" and changes nothing. */
    method UpdateTask(id: string, updates: TaskPatch, now: int) returns (r: Outcome)
      modifies this
      ensures r.Pass? <==> PatchConforms(id, updates)
      ensures r.Fail? ==> r.message == "Task update validation failed"
      ensures r.Fail? ==> tasks == old(tasks) && storage == old(storage)
      ensures r.Pass? ==> tasks == Merged(old(tasks), id, updates, now)
      ensures r.Pass? ==> storage == AfterNotify(old(storage), tasks, autoSaveActive, writeFails)
      ensures autoSaveActive == old(autoSaveActive) && writeFails == old(writeFails)
      ensures ModalsUnchanged()
    {
      UpdateSchemaOnPatch(id, updates);
      if ParseUpdateTaskRequest(PatchValue(id, updates)).Err? {
        return Fail("Task update validation failed");
      }
      SetTasks(Merged(tasks, id, updates, now));
      r := Pass;
    }

    /** `deleteTask`. */
    method DeleteTask(id: string)
      modifies this
      ensures tasks == WithoutId(old(tasks), id)
      ensures storage == AfterNotify(old(storage), tasks, autoSaveActive, writeFails)
      ensures autoSaveActive == old(autoSaveActive) && writeFails == old(writeFails)
      ensures ModalsUnchanged()
    {
      SetTasks(WithoutId(tasks, id));
    }

    /** `saveTasksToLocalStorage`. */
    method SaveTasksToLocalStorage()
      modifies this
      ensures storage == AfterWrite(old(storage), tasks, writeFails)
      ensures !writeFails ==> Persisted()
      ensures tasks == old(tasks) && autoSaveActive == old(autoSaveActive) && writeFails == old(writeFails)
      ensures ModalsUnchanged()
    {
      if !writeFails {
        storage := Saved(Serialize(tasks));
      }
    }

    /** `enableAutoSave`: subscribing runs the callback at once, so the first call writes;
        a second call finds the subscription and does nothing. */
    method EnableAutoSave()
      modifies this
      ensures autoSaveActive
      ensures storage == if old(autoSaveActive) then old(storage) else AfterWrite(old(storage), tasks, writeFails)
      ensures tasks == old(tasks) && writeFails == old(writeFails)
      ensures ModalsUnchanged()
    {
      if !autoSaveActive {
        autoSaveActive := true;
        SaveTasksToLocalStorage();
      }
    }

    /** `disableAutoSave`. */
    method DisableAutoSave()
      modifies this
      ensures !autoSaveActive
      ensures tasks == old(tasks) && storage == old(storage) && writeFails == old(writeFails)
      ensures ModalsUnchanged()
    {
      autoSaveActive := false;
    }

    /** `loadTasksFromLocalStorage`: a missing or empty entry leaves the tasks alone; an
        unreadable one empties them; otherwise the stored array, with its dates revived,
        replaces them. */
    method LoadTasksFromLocalStorage()
      modifies this
      ensures tasks == Loaded(old(storage), old(tasks))
      ensures old(storage).Absent? || old(storage).Blank? ==> storage == old(storage)
      ensures old(storage).Corrupt? ==> storage == AfterNotify(old(storage), [], autoSaveActive, writeFails)
      ensures old(storage).Saved? ==> storage == old(storage)
      ensures autoSaveActive == old(autoSaveActive) && writeFails == old(writeFails)
      ensures ModalsUnchanged()
    {
      match storage
      case Absent =>
      case Blank =>
      case Corrupt =>
        SetTasks([]);
      case Saved(rs) =>
        LoadedWriteBack(rs, writeFails);
        SetTasks(Restore(rs));
    }

    method OpenTaskModal()
      modifies this
      ensures isTaskModalOpen
      ensures isTaskEditModalOpen == old(isTaskEditModalOpen) && editingTaskId == old(editingTaskId)
      ensures tasks == old(tasks) && storage == old(storage)
      ensures autoSaveActive == old(autoSaveActive) && writeFails == old(writeFails)
    {
      isTaskModalOpen := true;
    }

    method CloseTaskModal()
      modifies this
      ensures !isTaskModalOpen
      ensures isTaskEditModalOpen == old(isTaskEditModalOpen) && editingTaskId == old(editingTaskId)
      ensures tasks == old(tasks) && storage == old(storage)
      ensures autoSaveActive == old(autoSaveActive) && writeFails == old(writeFails)
    {
      isTaskModalOpen := false;
    }

    method OpenTaskEditModal(taskId: string)
      modifies this
      ensures isTaskEditModalOpen && editingTaskId == Some(taskId)
      ensures isTaskModalOpen == old(isTaskModalOpen)
      ensures tasks == old(tasks) && storage == old(storage)
      ensures autoSaveActive == old(autoSaveActive) && writeFails == old(writeFails)
    {
      editingTaskId := Some(taskId);
      isTaskEditModalOpen := true;
    }

    method CloseTaskEditModal()
      modifies this
      ensures !isTaskEditModalOpen && editingTaskId == None
      ensures isTaskModalOpen == old(isTaskModalOpen)
      ensures tasks == old(tasks) && storage == old(storage)
      ensures autoSaveActive == old(autoSaveActive) && writeFails == old(writeFails)
    {
      isTaskEditModalOpen := false;
      editingTaskId := None;
    }
  }

  // ---------------------------------------------------------------------------
  // Sessions with the store
  // ---------------------------------------------------------------------------

  /** A save followed by a load, with storage that accepts the write, leaves the tasks as
      they were. */
  method SaveThenLoad(s: TaskStore)
    requires !s.writeFails
    modifies s
    ensures s.tasks == old(s.tasks)
  {
    s.SaveTasksToLocalStorage();
    s.LoadTasksFromLocalStorage();
  }

  /** With auto-save on and storage that accepts writes, every change to the tasks is
      persisted as it happens. */
  method AutoSaveKeepsStoragePersisted(s: TaskStore, draft: TaskDraft, id: string, now: int, patch: TaskPatch)
    requires !s.writeFails
    modifies s
    ensures s.autoSaveActive && s.Persisted()
  {
    s.EnableAutoSave();
    var t := s.AddTask(draft, id, now, now);
    var r := s.UpdateTask(t.id, patch, now);
    s.DeleteTask(id);
    s.LoadTasksFromLocalStorage();
  }
}

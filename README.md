# Kanban task data layer, modelled and verified in Dafny

This project models the data layer of a browser kanban board. It covers three parts:

- **The validation rules** (`src/lib/types/schemas.ts`). These are the task schema and
  the schemas derived from it: create, update (`partial().required({id})`) and query.
  It also covers `parseTask` and its siblings, and the form helpers
  `ValidationHelpers.isValidTitle`, `isValidDescription` and `getFieldError`.
- **The task types and type guards** (`src/lib/types/index.ts`).
- **The task store** (`src/lib/stores/tasks.ts`). This is the writable task list and the
  three status columns derived from it. It includes `addTask`, `updateTask` and
  `deleteTask`, the `localStorage` save, auto-save and load, and the modal flags.

Files:

- `Wrappers.dfy`: `Option`, `Result` and `Outcome` (pass, or a thrown message).
- `Values.dfy`: a JavaScript value as the validators see it.
- `Schemas.dfy`: a small validator.
  - A schema is data. `Accepts` states which values it admits.
  - `Issues` lists what it objects to. The order is field-declaration order, and within a
    field, check order.
  - `Parse` returns the stripped value or throws the issues.
  - The file also holds the schema constants of `schemas.ts` and the helpers.
- `SchemaProperties.dfy`: field-by-field facts about those schemas. Examples: the title
  and description messages, the enums, the update schema's `id`, and the query bounds.
- `Types.dfy`: the `Task` type, the guards, and the objects that a task, a create request
  and an update `{ id, ...updates }` are at run time.
- `TaskValidation.dfy`: what the schemas say about typed tasks, drafts and patches, and
  how the guards agree with the enum schemas.
- `TaskStore.dfy`: the store.
  - The list callbacks it passes to the Svelte stores are `filter` and `map`.
  - The `localStorage` encoding.
  - A class `TaskStore` whose fields are the module-level stores:
    - `tasks`, the task list;
    - `isTaskModalOpen`, `isTaskEditModalOpen` and `editingTaskId`, the modal stores;
    - `autoSaveActive`, whether the auto-save subscription exists;
    - `storage`, the `localStorage` entry `kanban_tasks`;
    - `writeFails`, whether writing that entry throws.

  Its methods change those fields, and their contracts tie the new state to functions of
  the old state.

Behaviour of the code that the model keeps as it is:

- `addTask` does not validate its input. `CreateTaskSchema` is imported but never
  called, so any draft is appended (`TaskStore.TaskStore.AddTask` has no precondition).
- `updateTask` signals a failed validation by throwing "Task update validation failed",
  and the list is left unchanged.
- The update schema checks `id` as a UUID. A task whose id is not one can never be
  updated. This includes the `task-001`… ids of `src/lib/data/sample-tasks.ts`.
- `loadTasksFromLocalStorage` empties the list only when reading or parsing throws. A
  missing or empty entry leaves the list as it was, and loaded records are not validated.
- Ids are whatever the caller's UUID source gives; nothing checks that they are unique.
- `createdAt` and `updatedAt` come from two separate clock readings.
- Auto-save writes on every change to the list. This includes updates and deletes that
  match no task, because each of them publishes a new array.

## Model

| member | source | states |
|---|---|---|
| Schemas.StringIssues | src/lib/types/schemas.ts:11-13 | every string check runs: each failing check contributes its issue and every issue comes from a failing check; no issues exactly when all checks pass; all issues carry the field's path |
| Schemas.NumberIssues | src/lib/types/schemas.ts:41-42 | inclusive number bounds; no issues exactly when every bound holds |
| Schemas.RuleIssues | src/lib/types/schemas.ts:11-20 | a value of the wrong kind gives exactly one `InvalidType` issue and no check runs; no issues exactly when the rule accepts the value |
| Schemas.FieldIssues | src/lib/types/schemas.ts:16-20 | missing, null and present entries are judged by optional/nullable/rule; issues are on that field's key |
| Schemas.ObjectIssues | src/lib/types/schemas.ts:10-21 | no issues exactly when every declared field is admissible; each issue's path is one declared key |
| Schemas.Issues | src/lib/types/schemas.ts:10-21 | the issue list is empty exactly when the schema accepts the value |
| Schemas.Stripped | src/lib/types/schemas.ts:10-21 | the parsed object is the part of the input on declared keys; an input with no undeclared keys comes back as it is |
| Schemas.StrippedTwice | src/lib/types/schemas.ts:10-21 | stripping an already stripped object changes nothing |
| Schemas.Parse | src/lib/types/schemas.ts:54-56 | succeeds exactly when the schema accepts; a failure carries at least one issue; success returns the input restricted to the declared keys |
| Schemas.ParseReturnsInput | src/lib/types/schemas.ts:54-64 | an accepted value without undeclared keys parses to itself |
| Schemas.PartialFields | src/lib/types/schemas.ts:35 | after `.partial()` each field keeps its key and accepts an object exactly when the entry is missing or the original field accepts it |
| Schemas.RequireField | src/lib/types/schemas.ts:35 | after `.required({id: true})` the `id` field accepts exactly when the entry is present and the field accepted it before; other fields are unchanged |
| Schemas.ParseTask | src/lib/types/schemas.ts:54-56 | succeeds exactly when the task schema accepts; returns the object restricted to the declared keys, unchanged when it has no others |
| Schemas.ParseCreateTaskRequest | src/lib/types/schemas.ts:58-60 | succeeds exactly when the create schema accepts; returns the request restricted to the declared keys, unchanged when it has no others |
| Schemas.ParseUpdateTaskRequest | src/lib/types/schemas.ts:62-64 | succeeds exactly when the update schema accepts; returns the update restricted to the declared keys, unchanged when it has no others |
| Schemas.IsValidTitle | src/lib/types/schemas.ts:68-75 | true exactly for titles of 1 to 100 characters |
| Schemas.IsValidDescription | src/lib/types/schemas.ts:77-84 | true exactly for descriptions of at most 500 characters |
| Schemas.FirstMessageAt | src/lib/types/schemas.ts:92-93 | the message of the first issue whose path starts with the field, or nothing when none does |
| Schemas.GetFieldError | src/lib/types/schemas.ts:86-97 | nothing when the data is valid; otherwise the first issue on the field, or nothing if the field has none |
| SchemaProperties.FirstMessageInObject | src/lib/types/schemas.ts:92-93 | the first issue on a key declared once is the first issue of that field |
| SchemaProperties.GetFieldErrorOfField | src/lib/types/schemas.ts:86-97 | on an object schema, `getFieldError` for a declared key is the first message of that field's own issues |
| SchemaProperties.UpdateFieldsShape | src/lib/types/schemas.ts:35 | the update schema has the task schema's fields, in order, with `id` required and every other field optional |
| SchemaProperties.TitleRule | src/lib/types/schemas.ts:12 | task, create and update schemas report "Title is required" for an empty title, "Title must be less than 100 characters" above 100, nothing for 1..100; `isValidTitle` agrees |
| SchemaProperties.DescriptionRule | src/lib/types/schemas.ts:13 | the three schemas report "Description must be less than 500 characters" exactly above 500 characters; `isValidDescription` agrees |
| SchemaProperties.EnumSchemas | src/lib/types/schemas.ts:4-7 | the status enum accepts exactly "todo", "in-progress" and "done"; the priority enum exactly "high", "medium" and "low" |
| SchemaProperties.StatusFieldRule | src/lib/types/schemas.ts:14 | a present `status` entry is valid in the task and create schemas exactly when the status enum accepts it |
| SchemaProperties.PriorityFieldRule | src/lib/types/schemas.ts:15 | a present `priority` entry is valid in the task and create schemas exactly when the priority enum accepts it |
| SchemaProperties.UpdateChecksPresentFields | src/lib/types/schemas.ts:35 | an update is accepted exactly when `id` is present and every present field meets the task schema's rule for it |
| SchemaProperties.UpdateRequiresId | src/lib/types/schemas.ts:35 | an update without `id` is rejected, with an issue on `id` |
| SchemaProperties.UpdateAcceptsIdAlone | src/lib/types/schemas.ts:35 | `{id}` with a UUID is a valid update and parses to itself |
| SchemaProperties.QueryAccepts | src/lib/types/schemas.ts:38-43 | a query is accepted exactly when each present field is a valid status, a valid priority, a `limit` in [1, 100] or an `offset` of at least 0 |
| SchemaProperties.EmptyQuery | src/lib/types/schemas.ts:38-43 | the empty query is valid and parses to itself |
| SchemaProperties.UuidExamples | src/lib/types/schemas.ts:11 | the 8-4-4-4-12 hex id is a UUID; "invalid-id" and "task-001" are not |
| Types.IsTaskStatus | src/lib/types/index.ts:52-54 | true exactly for the strings "todo", "in-progress" and "done", never for a non-string |
| Types.IsPriority | src/lib/types/index.ts:59-61 | true exactly for the strings "high", "medium" and "low", never for a non-string |
| Types.StatusOf | src/lib/types/index.ts:52-54 | narrows exactly the values the guard accepts, to the status whose name they are |
| Types.PriorityOf | src/lib/types/index.ts:59-61 | narrows exactly the values the guard accepts, to the priority whose name they are |
| Types.StatusNames | src/lib/types/index.ts:30 | every status name passes `isTaskStatus` and narrows back to its status |
| Types.PriorityNames | src/lib/types/index.ts:35 | every priority name passes `isPriority` and narrows back to its priority |
| TaskValidation.GuardsAgreeWithSchemas | src/lib/types/index.ts:52-61 | `isTaskStatus` and `isPriority` accept exactly what the enum schemas accept |
| TaskValidation.TaskSchemaOnTask | src/lib/types/schemas.ts:10-21 | a task's object passes `parseTask` exactly when its id is a UUID, its title has 1..100 characters and its description at most 500; it then parses to itself |
| TaskValidation.CreateSchemaOnDraft | src/lib/types/schemas.ts:24-32 | a draft passes `parseCreateTaskRequest` exactly when its title and description are within bounds; it then parses to itself |
| TaskValidation.PatchValueShape | src/lib/stores/tasks.ts:41 | `{ id, ...updates }` is an object holding the id and exactly the fields the update carries, each with the update's value; `createdAt` never appears |
| TaskValidation.UpdateSchemaOnPatch | src/lib/stores/tasks.ts:41-47 | `{ id, ...updates }` validates exactly when `id` is a UUID and any title/description it carries is within bounds; it then parses to itself |
| TaskStore.Filter | src/lib/stores/tasks.ts:15 | keeps exactly the elements the test accepts, each one tested, never more than the input |
| TaskStore.FilterConcat | src/lib/stores/tasks.ts:15 | filtering a concatenation is the concatenation of the filtered parts, so order is kept |
| TaskStore.WithStatus | src/lib/stores/tasks.ts:14-24 | a column holds exactly the tasks with that status |
| TaskStore.ColumnsPartition | src/lib/stores/tasks.ts:14-24 | the three columns together hold every task exactly once (as multisets) |
| TaskStore.ColumnsCount | src/lib/stores/tasks.ts:14-24 | the column lengths add up to the number of tasks |
| TaskStore.ColumnsAfterAppend | src/lib/stores/tasks.ts:14-35 | after an add, the new task is last in its own column and the other columns are unchanged |
| TaskStore.NewTask | src/lib/stores/tasks.ts:28-33 | the new task carries the given id and timestamps and echoes every draft field |
| TaskStore.ApplyPatch | src/lib/stores/tasks.ts:52 | the patched task keeps its id and `createdAt`, has `updatedAt` equal to the new clock reading whatever the update says, and takes each other field from the update when it carries one, else keeps the old value |
| TaskStore.ApplyPatchSpreads | src/lib/stores/tasks.ts:52 | the patched object is the old one overwritten by `{ id, ...updates }` and then `updatedAt: now`; the key set, id and `createdAt` are kept; a passed `updatedAt` is overridden |
| TaskStore.ApplyPatchTwice | src/lib/stores/tasks.ts:52 | the same patch at the same instant is idempotent |
| TaskStore.ApplyPatchConforms | src/lib/stores/tasks.ts:39-55 | a valid task stays valid under a patch that passes the update schema |
| TaskStore.Merged | src/lib/stores/tasks.ts:49-55 | same length; ids and `createdAt` kept in place; tasks with other ids identical; matching tasks patched with `updatedAt = now` |
| TaskStore.MergedMissingId | src/lib/stores/tasks.ts:49-55 | an update of an absent id leaves the list unchanged |
| TaskStore.MergedConforms | src/lib/stores/tasks.ts:39-55 | a validated update keeps a list of valid tasks valid |
| TaskStore.WithoutId | src/lib/stores/tasks.ts:59 | keeps exactly the tasks whose id differs |
| TaskStore.WithoutIdConcat | src/lib/stores/tasks.ts:59 | deleting from a concatenation deletes from each part, so the remaining tasks keep their order |
| TaskStore.DeleteTwice | src/lib/stores/tasks.ts:58-60 | deleting twice is deleting once |
| TaskStore.DeleteMissingId | src/lib/stores/tasks.ts:58-60 | deleting an absent id leaves the list unchanged |
| TaskStore.NonUuidIdRejected | src/lib/stores/tasks.ts:41-47 | an update of a non-UUID id always fails validation |
| TaskStore.SampleIdRejected | src/lib/data/sample-tasks.ts:10 | the sample id "task-001" can never be updated |
| TaskStore.Serialize | src/lib/stores/tasks.ts:78 | `JSON.stringify` of the save and of the auto-save callback (line 89): one record per task, in order, each the task's JSON form; `RestoreSerialize` shows that loading it gives the tasks back |
| TaskStore.Restore | src/lib/stores/tasks.ts:111-116 | one task per record, in order, each with its dates revived; `SerializeRestore` shows that saving the result writes the same records |
| TaskStore.RestoreSerialize | src/lib/stores/tasks.ts:104-124 | loading what was saved gives back the same tasks, dates and null due dates included |
| TaskStore.SerializeRestore | src/lib/stores/tasks.ts:104-124 | saving what was loaded writes back the same records |
| TaskStore.AfterWrite | src/lib/stores/tasks.ts:77-81 | a failed write is swallowed and leaves the entry as it was; a successful one stores records that restore to the tasks |
| TaskStore.AfterNotify | src/lib/stores/tasks.ts:85-95 | only an active auto-save subscription writes on a change |
| TaskStore.Loaded | src/lib/stores/tasks.ts:104-124 | a missing or empty entry keeps the tasks, an unreadable one empties them, and saved records replace them one for one, as tasks that serialize back to those records |
| TaskStore.LoadAfterSave | src/lib/stores/tasks.ts:104-124 | a load after a successful save restores the saved tasks, whatever the list held |
| TaskStore.LoadedWriteBack | src/lib/stores/tasks.ts:85-124 | with auto-save on, the write after a load puts back the records it read |
| TaskStore.TaskStore.constructor | src/lib/stores/tasks.ts:6-11 | no tasks, both modals closed, no task being edited, no auto-save |
| TaskStore.TaskStore.TodoTasks | src/lib/stores/tasks.ts:14-16 | exactly the stored tasks with status todo |
| TaskStore.TaskStore.InProgressTasks | src/lib/stores/tasks.ts:18-20 | exactly the stored tasks with status in-progress |
| TaskStore.TaskStore.DoneTasks | src/lib/stores/tasks.ts:22-24 | exactly the stored tasks with status done |
| TaskStore.TaskStore.SetTasks | src/lib/stores/tasks.ts:6 | a new list replaces the tasks and reaches the auto-save subscriber; nothing else changes |
| TaskStore.TaskStore.AddTask | src/lib/stores/tasks.ts:27-37 | with no validation, appends the new task and returns it; auto-save follows |
| TaskStore.TaskStore.UpdateTask | src/lib/stores/tasks.ts:39-56 | fails with "Task update validation failed" exactly when `{ id, ...updates }` does not validate, and then changes nothing; otherwise the list becomes the merged list |
| TaskStore.TaskStore.DeleteTask | src/lib/stores/tasks.ts:58-60 | the list loses exactly the tasks with that id; auto-save follows |
| TaskStore.TaskStore.SaveTasksToLocalStorage | src/lib/stores/tasks.ts:68-83 | writes the current tasks, or leaves the entry alone when the write fails; the tasks are untouched |
| TaskStore.TaskStore.EnableAutoSave | src/lib/stores/tasks.ts:85-95 | the first call subscribes and writes at once; later calls do nothing |
| TaskStore.TaskStore.DisableAutoSave | src/lib/stores/tasks.ts:97-102 | the subscription ends; tasks and storage untouched |
| TaskStore.TaskStore.LoadTasksFromLocalStorage | src/lib/stores/tasks.ts:104-124 | the tasks become `Loaded(entry, tasks)`; a restored list written back by auto-save leaves the entry as it was |
| TaskStore.TaskStore.OpenTaskModal | src/lib/stores/tasks.ts:127-129 | opens the create modal and changes nothing else |
| TaskStore.TaskStore.CloseTaskModal | src/lib/stores/tasks.ts:131-133 | closes the create modal and changes nothing else |
| TaskStore.TaskStore.OpenTaskEditModal | src/lib/stores/tasks.ts:135-138 | records the task being edited and opens the edit modal |
| TaskStore.TaskStore.CloseTaskEditModal | src/lib/stores/tasks.ts:140-143 | closes the edit modal and clears the task being edited |
| TaskStore.SaveThenLoad | src/lib/stores/tasks.ts:68-124 | with writable storage, a save followed by a load leaves the tasks as they were |
| TaskStore.AutoSaveKeepsStoragePersisted | src/lib/stores/tasks.ts:85-95 | a session that turns auto-save on (or finds it on) and then adds, updates, deletes and loads, with writes that succeed, ends with storage holding the current tasks |

## Left out

- The `typeof window !== 'undefined'` guards: the model is the browser case. On the server, all three storage functions do nothing.
- `console.error` and `console.warn` output.
- `crypto.randomUUID()` and `new Date()`: they become the id and clock parameters of `AddTask` and `UpdateTask`.
- UpdateTask: the source reads the clock once per matching task; the model uses one `now` per call.
- A Svelte subscription's teardown and the subscriber machinery: the model keeps only their effect. Every `set` or `update` of the list notifies, and `subscribe` runs its callback at once.
- JSON text: a saved entry is the list of records it encodes, and an ISO date string is named by its instant.
  - Dates that `toISOString` rejects are left out.
  - So is JSON that parses to an array of non-task values, because the loaded records are not validated.
  - An unreadable entry stands for every case where `JSON.parse` or the following `.map` throws.
- A single `writeFails` flag models a storage quota or a disabled storage. An actual storage size limit is not modelled.
- NaN, infinities and invalid `Date` objects: numbers are mathematical reals and dates are integer milliseconds.
- String length counts Dafny characters, not UTF-16 code units.
- The validation library's default message texts: they appear as `LibraryDefault`. Issue codes other than the five the rules raise are left out.
- Validation of values nested inside arrays or objects, and zod's unrecognised-key modes other than the default strip.
- Update patches whose fields are present with the value `undefined` are left out: a patch field is either carried or absent.
- The `ApiResponse` type, which no core function uses.
- `src/routes/api/health/+server.ts`, the build scripts, the sample data (beyond its ids) and the test suites are not part of this model.

/** What the schemas say about well-typed tasks, create requests and update requests,
    and how the type guards of src/lib/types/index.ts agree with the enum schemas. */
module TaskValidation {
  import opened Wrappers
  import opened Values
  import opened Schemas
  import opened SchemaProperties
  import opened Types

  /** `isTaskStatus` and `isPriority` accept exactly what the enum schemas accept. */
  lemma GuardsAgreeWithSchemas(v: Value)
    ensures IsTaskStatus(v) <==> Parse(TaskStatusSchema, v).Ok?
    ensures IsPriority(v) <==> Parse(PrioritySchema, v).Ok?
  {
    EnumSchemas(v);
  }

  /** The typed fields the task schema can still object to. */
  predicate TaskConforms(t: Task) {
    IsUuid(t.id) && 1 <= |t.title| <= 100 && |t.description| <= 500
  }

  predicate DraftConforms(d: TaskDraft) {
    1 <= |d.title| <= 100 && |d.description| <= 500
  }

  predicate PatchConforms(id: string, p: TaskPatch) {
    IsUuid(id) &&
    (p.title.Some? ==> 1 <= |p.title.value| <= 100) &&
    (p.description.Some? ==> |p.description.value| <= 500)
  }

  lemma StringRules(s: string)
    ensures RuleAccepts(IdField.rule, Str(s)) <==> IsUuid(s)
    ensures RuleAccepts(TitleField.rule, Str(s)) <==> 1 <= |s| <= 100
    ensures RuleAccepts(DescriptionField.rule, Str(s)) <==> |s| <= 500
    ensures RuleAccepts(OriginalPromptField.rule, Str(s))
  {
    var id, title, description := IdField.rule.checks, TitleField.rule.checks, DescriptionField.rule.checks;
    assert id[0] in id;
    assert title[0] in title && title[1] in title;
    assert description[0] in description;
  }

  lemma EnumNames(s: TaskStatus, p: Priority)
    ensures RuleAccepts(StatusField.rule, Str(StatusName(s)))
    ensures RuleAccepts(PriorityField.rule, Str(PriorityName(p)))
  {
  }

  /** The task schema's verdict on an object, field by field. */
  lemma TaskSchemaByField(m: map<string, Value>)
    ensures Accepts(TaskSchema, Obj(m)) <==>
      FieldAccepts(IdField, m) && FieldAccepts(TitleField, m) && FieldAccepts(DescriptionField, m) &&
      FieldAccepts(StatusField, m) && FieldAccepts(PriorityField, m) && FieldAccepts(DueDateField, m) &&
      FieldAccepts(CreatedAtField, m) && FieldAccepts(UpdatedAtField, m) &&
      FieldAccepts(AiGeneratedField, m) && FieldAccepts(OriginalPromptField, m)
  {
  }

  lemma TaskFieldKeys(k: string)
    requires k in {"id", "title", "description", "status", "priority", "dueDate",
                   "createdAt", "updatedAt", "aiGenerated", "originalPrompt"}
    ensures k in FieldKeys(TaskFields)
  {
    var i :=
      if k == "id" then 0 else if k == "title" then 1 else if k == "description" then 2
      else if k == "status" then 3 else if k == "priority" then 4 else if k == "dueDate" then 5
      else if k == "createdAt" then 6 else if k == "updatedAt" then 7 else if k == "aiGenerated" then 8
      else 9;
    assert TaskFields[i].key == k;
    assert TaskFields[i] in TaskFields;
  }

  lemma TaskValueKeyFields(t: Task)
    ensures var m := TaskValue(t).fields;
      (FieldAccepts(IdField, m) <==> IsUuid(t.id)) &&
      (FieldAccepts(TitleField, m) <==> 1 <= |t.title| <= 100) &&
      (FieldAccepts(DescriptionField, m) <==> |t.description| <= 500)
  {
    StringRules(t.id);
    StringRules(t.title);
    StringRules(t.description);
  }

  lemma TaskValueOtherFields(t: Task)
    ensures var m := TaskValue(t).fields;
      FieldAccepts(StatusField, m) && FieldAccepts(PriorityField, m) && FieldAccepts(DueDateField, m) &&
      FieldAccepts(CreatedAtField, m) && FieldAccepts(UpdatedAtField, m) &&
      FieldAccepts(AiGeneratedField, m) && FieldAccepts(OriginalPromptField, m)
  {
    if t.originalPrompt.Some? {
      StringRules(t.originalPrompt.value);
    }
    EnumNames(t.status, t.priority);
  }

  lemma TaskValueAccepted(t: Task)
    ensures Accepts(TaskSchema, TaskValue(t)) <==> TaskConforms(t)
  {
    TaskSchemaByField(TaskValue(t).fields);
    TaskValueKeyFields(t);
    TaskValueOtherFields(t);
  }

  lemma TaskValueKeys(t: Task)
    ensures TaskValue(t).fields.Keys <= FieldKeys(TaskFields)
  {
    forall k | k in TaskValue(t).fields ensures k in FieldKeys(TaskFields) {
      TaskFieldKeys(k);
    }
  }

  /** A task's object passes the task schema exactly when its id is a UUID and its title
      and description are within bounds; it then parses to itself. */
  lemma TaskSchemaOnTask(t: Task)
    ensures ParseTask(TaskValue(t)).Ok? <==> TaskConforms(t)
    ensures TaskConforms(t) ==> ParseTask(TaskValue(t)) == Ok(TaskValue(t))
  {
    TaskValueAccepted(t);
    TaskValueKeys(t);
  }

  // ---------------------------------------------------------------------------
  // Create requests
  // ---------------------------------------------------------------------------

  lemma CreateSchemaByField(m: map<string, Value>)
    ensures Accepts(CreateTaskSchema, Obj(m)) <==>
      FieldAccepts(CreateTitleField, m) && FieldAccepts(CreateDescriptionField, m) &&
      FieldAccepts(CreateStatusField, m) && FieldAccepts(CreatePriorityField, m) &&
      FieldAccepts(CreateDueDateField, m) && FieldAccepts(CreateAiGeneratedField, m) &&
      FieldAccepts(CreateOriginalPromptField, m)
  {
  }

  lemma CreateFieldKeys(k: string)
    requires k in {"title", "description", "status", "priority", "dueDate", "aiGenerated", "originalPrompt"}
    ensures k in FieldKeys(CreateFields)
  {
    var i :=
      if k == "title" then 0 else if k == "description" then 1 else if k == "status" then 2
      else if k == "priority" then 3 else if k == "dueDate" then 4 else if k == "aiGenerated" then 5
      else 6;
    assert CreateFields[i].key == k;
    assert CreateFields[i] in CreateFields;
  }

  lemma DraftValueKeyFields(d: TaskDraft)
    ensures var m := DraftValue(d).fields;
      (FieldAccepts(CreateTitleField, m) <==> 1 <= |d.title| <= 100) &&
      (FieldAccepts(CreateDescriptionField, m) <==> |d.description| <= 500)
  {
    assert CreateTitleField.rule == TitleField.rule;
    assert CreateDescriptionField.rule == DescriptionField.rule;
    StringRules(d.title);
    StringRules(d.description);
  }

  lemma DraftValueOtherFields(d: TaskDraft)
    ensures var m := DraftValue(d).fields;
      FieldAccepts(CreateStatusField, m) && FieldAccepts(CreatePriorityField, m) &&
      FieldAccepts(CreateDueDateField, m) && FieldAccepts(CreateAiGeneratedField, m) &&
      FieldAccepts(CreateOriginalPromptField, m)
  {
    assert CreateOriginalPromptField.rule == OriginalPromptField.rule;
    if d.originalPrompt.Some? {
      StringRules(d.originalPrompt.value);
    }
    assert CreateStatusField.rule == StatusField.rule;
    assert CreatePriorityField.rule == PriorityField.rule;
    EnumNames(d.status, d.priority);
  }

  lemma DraftValueAccepted(d: TaskDraft)
    ensures Accepts(CreateTaskSchema, DraftValue(d)) <==> DraftConforms(d)
  {
    CreateSchemaByField(DraftValue(d).fields);
    DraftValueKeyFields(d);
    DraftValueOtherFields(d);
  }

  /** A create request passes the create schema exactly when its title and description
      are within bounds; it then parses to itself. */
  lemma CreateSchemaOnDraft(d: TaskDraft)
    ensures ParseCreateTaskRequest(DraftValue(d)).Ok? <==> DraftConforms(d)
    ensures DraftConforms(d) ==> ParseCreateTaskRequest(DraftValue(d)) == Ok(DraftValue(d))
  {
    DraftValueAccepted(d);
    forall k | k in DraftValue(d).fields ensures k in FieldKeys(CreateFields) {
      CreateFieldKeys(k);
    }
  }

  // ---------------------------------------------------------------------------
  // Update requests
  // ---------------------------------------------------------------------------

  // Where each field of `{ id, ...updates }` comes from, one key at a time.

  lemma PatchId(id: string, p: TaskPatch)
    ensures var m := PatchValue(id, p).fields;
      "id" in m && m["id"] == Str(id) && "createdAt" !in m
  {
  }

  lemma PatchTitle(id: string, p: TaskPatch)
    ensures var m := PatchValue(id, p).fields;
      ("title" in m <==> p.title.Some?) && (p.title.Some? ==> m["title"] == Str(p.title.value))
  {
  }

  lemma PatchDescription(id: string, p: TaskPatch)
    ensures var m := PatchValue(id, p).fields;
      ("description" in m <==> p.description.Some?) &&
      (p.description.Some? ==> m["description"] == Str(p.description.value))
  {
  }

  lemma PatchStatus(id: string, p: TaskPatch)
    ensures var m := PatchValue(id, p).fields;
      ("status" in m <==> p.status.Some?) &&
      (p.status.Some? ==> m["status"] == Str(StatusName(p.status.value)))
  {
  }

  lemma PatchPriority(id: string, p: TaskPatch)
    ensures var m := PatchValue(id, p).fields;
      ("priority" in m <==> p.priority.Some?) &&
      (p.priority.Some? ==> m["priority"] == Str(PriorityName(p.priority.value)))
  {
  }

  lemma PatchDueDate(id: string, p: TaskPatch)
    ensures var m := PatchValue(id, p).fields;
      ("dueDate" in m <==> p.dueDate.Some?) &&
      (p.dueDate.Some? ==> m["dueDate"] == DateOrNull(p.dueDate.value))
  {
  }

  lemma PatchUpdatedAt(id: string, p: TaskPatch)
    ensures var m := PatchValue(id, p).fields;
      ("updatedAt" in m <==> p.updatedAt.Some?) &&
      (p.updatedAt.Some? ==> m["updatedAt"] == Date(p.updatedAt.value))
  {
  }

  lemma PatchAiGenerated(id: string, p: TaskPatch)
    ensures var m := PatchValue(id, p).fields;
      ("aiGenerated" in m <==> p.aiGenerated.Some?) &&
      (p.aiGenerated.Some? ==> m["aiGenerated"] == Bool(p.aiGenerated.value))
  {
  }

  lemma PatchOriginalPrompt(id: string, p: TaskPatch)
    ensures var m := PatchValue(id, p).fields;
      ("originalPrompt" in m <==> p.originalPrompt.Some?) &&
      (p.originalPrompt.Some? ==> m["originalPrompt"] == StringOrNull(p.originalPrompt.value))
  {
  }

  lemma PatchKeys(id: string, p: TaskPatch)
    ensures PatchValue(id, p).fields.Keys <=
      {"id", "title", "description", "status", "priority", "dueDate",
       "updatedAt", "aiGenerated", "originalPrompt"}
  {
  }

  /** `{ id, ...updates }` is an object holding the id and exactly the fields the patch
      carries, each with the patch's value; `createdAt` never appears in it. */
  lemma PatchValueShape(id: string, p: TaskPatch)
    ensures PatchValue(id, p).Obj?
    ensures var m := PatchValue(id, p).fields;
      "id" in m && m["id"] == Str(id) &&
      m.Keys <= {"id", "title", "description", "status", "priority", "dueDate",
                 "updatedAt", "aiGenerated", "originalPrompt"}
    ensures var m := PatchValue(id, p).fields;
      ("title" in m <==> p.title.Some?) && (p.title.Some? ==> m["title"] == Str(p.title.value)) &&
      ("description" in m <==> p.description.Some?) &&
      (p.description.Some? ==> m["description"] == Str(p.description.value))
    ensures var m := PatchValue(id, p).fields;
      ("status" in m <==> p.status.Some?) &&
      (p.status.Some? ==> m["status"] == Str(StatusName(p.status.value))) &&
      ("priority" in m <==> p.priority.Some?) &&
      (p.priority.Some? ==> m["priority"] == Str(PriorityName(p.priority.value)))
    ensures var m := PatchValue(id, p).fields;
      ("dueDate" in m <==> p.dueDate.Some?) &&
      (p.dueDate.Some? ==> m["dueDate"] == DateOrNull(p.dueDate.value)) &&
      ("updatedAt" in m <==> p.updatedAt.Some?) &&
      (p.updatedAt.Some? ==> m["updatedAt"] == Date(p.updatedAt.value))
    ensures var m := PatchValue(id, p).fields;
      ("aiGenerated" in m <==> p.aiGenerated.Some?) &&
      (p.aiGenerated.Some? ==> m["aiGenerated"] == Bool(p.aiGenerated.value)) &&
      ("originalPrompt" in m <==> p.originalPrompt.Some?) &&
      (p.originalPrompt.Some? ==> m["originalPrompt"] == StringOrNull(p.originalPrompt.value))
  {
    PatchId(id, p);
    PatchKeys(id, p);
    PatchTitle(id, p);
    PatchDescription(id, p);
    PatchStatus(id, p);
    PatchPriority(id, p);
    PatchDueDate(id, p);
    PatchUpdatedAt(id, p);
    PatchAiGenerated(id, p);
    PatchOriginalPrompt(id, p);
  }

  lemma PatchIdAccepted(id: string, p: TaskPatch)
    ensures FieldAccepts(IdField, PatchValue(id, p).fields) <==> IsUuid(id)
  {
    PatchId(id, p);
    StringRules(id);
  }

  lemma PatchTitleAccepted(id: string, p: TaskPatch)
    requires p.title.Some?
    ensures FieldAccepts(TitleField, PatchValue(id, p).fields) <==> 1 <= |p.title.value| <= 100
  {
    PatchTitle(id, p);
    StringRules(p.title.value);
  }

  lemma PatchDescriptionAccepted(id: string, p: TaskPatch)
    requires p.description.Some?
    ensures FieldAccepts(DescriptionField, PatchValue(id, p).fields) <==> |p.description.value| <= 500
  {
    PatchDescription(id, p);
    StringRules(p.description.value);
  }

  lemma PatchOriginalPromptAccepted(id: string, p: TaskPatch)
    requires p.originalPrompt.Some?
    ensures FieldAccepts(OriginalPromptField, PatchValue(id, p).fields)
  {
    PatchOriginalPrompt(id, p);
    if p.originalPrompt.value.Some? {
      StringRules(p.originalPrompt.value.value);
    }
  }

  lemma PatchFieldAccepted(id: string, p: TaskPatch, i: nat)
    requires i < |TaskFields| && !Missing(PatchValue(id, p).fields, TaskFields[i].key)
    ensures FieldAccepts(TaskFields[i], PatchValue(id, p).fields) <==>
      (i == 0 ==> IsUuid(id)) &&
      (i == 1 ==> 1 <= |p.title.value| <= 100) &&
      (i == 2 ==> |p.description.value| <= 500)
  {
    PatchId(id, p);
    if i == 0 {
      assert TaskFields[i] == IdField;
      PatchIdAccepted(id, p);
    } else if i == 1 {
      assert TaskFields[i] == TitleField;
      PatchTitle(id, p);
      PatchTitleAccepted(id, p);
    } else if i == 2 {
      assert TaskFields[i] == DescriptionField;
      PatchDescription(id, p);
      PatchDescriptionAccepted(id, p);
    } else if i == 3 {
      assert TaskFields[i] == StatusField;
      PatchStatus(id, p);
      EnumNames(p.status.value, Low);
    } else if i == 4 {
      assert TaskFields[i] == PriorityField;
      PatchPriority(id, p);
      EnumNames(Todo, p.priority.value);
    } else if i == 5 {
      assert TaskFields[i] == DueDateField;
      PatchDueDate(id, p);
    } else if i == 6 {
      // `createdAt` is never part of an update
      assert false;
    } else if i == 7 {
      assert TaskFields[i] == UpdatedAtField;
      PatchUpdatedAt(id, p);
    } else if i == 8 {
      assert TaskFields[i] == AiGeneratedField;
      PatchAiGenerated(id, p);
    } else {
      assert TaskFields[i] == OriginalPromptField;
      PatchOriginalPrompt(id, p);
      PatchOriginalPromptAccepted(id, p);
    }
  }

  /** The update schema accepts `{ id, ...updates }` exactly when the patch conforms. */
  lemma UpdateSchemaAcceptsPatch(id: string, p: TaskPatch)
    ensures Accepts(UpdateTaskSchema, PatchValue(id, p)) <==> PatchConforms(id, p)
  {
    var m := PatchValue(id, p).fields;
    UpdateChecksPresentFields(m);
    PatchId(id, p);
    PatchTitle(id, p);
    PatchDescription(id, p);
    PatchKeys(id, p);
    forall i | 0 <= i < |TaskFields| && !Missing(m, TaskFields[i].key)
      ensures FieldAccepts(TaskFields[i], m) <==>
        (i == 0 ==> IsUuid(id)) &&
        (i == 1 ==> 1 <= |p.title.value| <= 100) &&
        (i == 2 ==> |p.description.value| <= 500)
    {
      PatchFieldAccepted(id, p, i);
    }
    assert !Missing(m, TaskFields[0].key);
    assert p.title.Some? ==> !Missing(m, TaskFields[1].key);
    assert p.description.Some? ==> !Missing(m, TaskFields[2].key);
  }

  /** Every key of `{ id, ...updates }` is declared by the update schema. */
  lemma PatchKeysDeclared(id: string, p: TaskPatch)
    ensures PatchValue(id, p).fields.Keys <= FieldKeys(UpdateTaskSchema.fields)
  {
    var m := PatchValue(id, p).fields;
    PatchKeys(id, p);
    UpdateFieldsShape();
    forall k | k in m ensures k in FieldKeys(UpdateTaskSchema.fields) {
      TaskFieldKeys(k);
      var i :| 0 <= i < |TaskFields| && TaskFields[i].key == k;
      assert UpdateTaskSchema.fields[i] in UpdateTaskSchema.fields;
    }
  }

  /** `{ id, ...updates }` passes the update schema exactly when `id` is a UUID and the
      title and description it carries, if any, are within bounds; it then parses to itself. */
  lemma UpdateSchemaOnPatch(id: string, p: TaskPatch)
    ensures ParseUpdateTaskRequest(PatchValue(id, p)).Ok? <==> PatchConforms(id, p)
    ensures PatchConforms(id, p) ==> ParseUpdateTaskRequest(PatchValue(id, p)) == Ok(PatchValue(id, p))
  {
    UpdateSchemaAcceptsPatch(id, p);
    PatchKeysDeclared(id, p);
  }
}

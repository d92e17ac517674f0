/** What the schemas of src/lib/types/schemas.ts accept and which messages they report,
    field by field. */
module SchemaProperties {
  import opened Wrappers
  import opened Values
  import opened Schemas

  // ---------------------------------------------------------------------------
  // getFieldError on an object schema reports the first issue of that field
  // ---------------------------------------------------------------------------

  /** The message of the first issue in a list, if any. */
  function FirstMessage(issues: seq<Issue>): Option<Message> {
    if issues == [] then None else Some(issues[0].message)
  }

  lemma {:induction false} FirstMessageAtConcat(a: seq<Issue>, b: seq<Issue>, field: string)
    ensures FirstMessageAt(a + b, field) ==
      if FirstMessageAt(a, field).Some? then FirstMessageAt(a, field) else FirstMessageAt(b, field)
  {
    if a == [] {
      assert a + b == b;
    } else {
      assert (a + b)[0] == a[0];
      assert (a + b)[1..] == a[1..] + b;
      FirstMessageAtConcat(a[1..], b, field);
    }
  }

  /** No field other than `fs[k]` has its key. */
  predicate KeyUnique(fs: seq<Field>, k: nat)
    requires k < |fs|
  {
    forall j :: 0 <= j < |fs| && j != k ==> fs[j].key != fs[k].key
  }

  /** Since the object's issues come field by field and every issue of a field carries
      that field's key, the first issue on key `fs[k].key` is the first issue of `fs[k]`. */
  lemma {:induction false} FirstMessageInObject(fs: seq<Field>, m: map<string, Value>, k: nat)
    requires k < |fs| && KeyUnique(fs, k)
    ensures FirstMessageAt(ObjectIssues(fs, m), fs[k].key) == FirstMessage(FieldIssues(fs[k], m))
  {
    var field := fs[k].key;
    var head, rest := FieldIssues(fs[0], m), ObjectIssues(fs[1..], m);
    assert ObjectIssues(fs, m) == head + rest;
    FirstMessageAtConcat(head, rest, field);
    if k == 0 {
      if head != [] {
        assert HeadIs(head[0], field);
      } else {
        forall f | f in fs[1..] ensures f.key != field {
          var j :| 0 <= j < |fs[1..]| && fs[1..][j] == f;
          assert fs[j + 1] == f;
        }
      }
    } else {
      assert fs[0].key != field;
      assert FirstMessageAt(head, field).None?;
      assert fs[1..][k - 1] == fs[k];
      assert KeyUnique(fs[1..], k - 1) by {
        forall j | 0 <= j < |fs[1..]| && j != k - 1 ensures fs[1..][j].key != field {
          assert fs[1..][j] == fs[j + 1];
        }
      }
      FirstMessageInObject(fs[1..], m, k - 1);
    }
  }

  /** `getFieldError(schema, data, key)` for an object schema that declares the key once
      is the message of the first issue that field raises, or nothing. */
  lemma GetFieldErrorOfField(fs: seq<Field>, m: map<string, Value>, k: nat)
    requires k < |fs| && KeyUnique(fs, k)
    ensures GetFieldError(ObjectSchema(fs), Obj(m), fs[k].key) == FirstMessage(FieldIssues(fs[k], m))
  {
    if Accepts(ObjectSchema(fs), Obj(m)) {
      assert fs[k] in fs;
    } else {
      FirstMessageInObject(fs, m, k);
    }
  }

  // ---------------------------------------------------------------------------
  // The update schema's fields
  // ---------------------------------------------------------------------------

  lemma UpdateFieldsShape()
    ensures |UpdateTaskSchema.fields| == |TaskFields|
    ensures UpdateTaskSchema.fields[0] == TaskFields[0]
    ensures forall i :: 1 <= i < |TaskFields| ==> UpdateTaskSchema.fields[i] == TaskFields[i].(optional := true)
    ensures KeyUnique(UpdateTaskSchema.fields, 0) && KeyUnique(UpdateTaskSchema.fields, 1) &&
            KeyUnique(UpdateTaskSchema.fields, 2)
  {
    assert forall i :: 0 <= i < |TaskFields| ==> UpdateTaskSchema.fields[i].key == TaskFields[i].key;
  }

  // ---------------------------------------------------------------------------
  // title and description
  // ---------------------------------------------------------------------------

  /** The message the title rule reports for a title, or nothing for a valid one. */
  function TitleError(t: string): Option<Message> {
    if |t| < 1 then Some(Custom("Title is required"))
    else if |t| > 100 then Some(Custom("Title must be less than 100 characters"))
    else None
  }

  /** The message the description rule reports, or nothing for a valid one. */
  function DescriptionError(d: string): Option<Message> {
    if |d| > 500 then Some(Custom("Description must be less than 500 characters")) else None
  }

  lemma TitleIssues(f: Field, m: map<string, Value>, t: string)
    requires f.rule == TitleField.rule && !f.nullable
    requires f.key in m && m[f.key] == Str(t)
    ensures FirstMessage(FieldIssues(f, m)) == TitleError(t)
  {
    var checks := TitleField.rule.checks;
    var path := [f.key];
    assert checks[1..] == [checks[1]] && checks[1..][1..] == [];
    assert StringIssues(checks[1..], t, path) ==
      (if |t| <= 100 then [] else [Issue(path, TooBig, Custom("Title must be less than 100 characters"))]);
    assert StringIssues(checks, t, path) ==
      (if |t| >= 1 then [] else [Issue(path, TooSmall, Custom("Title is required"))]) + StringIssues(checks[1..], t, path);
  }

  lemma DescriptionIssues(f: Field, m: map<string, Value>, d: string)
    requires f.rule == DescriptionField.rule && !f.nullable
    requires f.key in m && m[f.key] == Str(d)
    ensures FirstMessage(FieldIssues(f, m)) == DescriptionError(d)
  {
    var checks := DescriptionField.rule.checks;
    assert checks[1..] == [];
    assert StringIssues(checks, d, [f.key]) ==
      (if |d| <= 500 then [] else [Issue([f.key], TooBig, Custom("Description must be less than 500 characters"))]) + [];
  }

  lemma TitleErrorOf(fs: seq<Field>, m: map<string, Value>, k: nat, t: string)
    requires k < |fs| && KeyUnique(fs, k) && fs[k].key == "title"
    requires fs[k].rule == TitleField.rule && !fs[k].nullable
    requires "title" in m && m["title"] == Str(t)
    ensures GetFieldError(ObjectSchema(fs), Obj(m), "title") == TitleError(t)
  {
    GetFieldErrorOfField(fs, m, k);
    TitleIssues(fs[k], m, t);
  }

  lemma DescriptionErrorOf(fs: seq<Field>, m: map<string, Value>, k: nat, d: string)
    requires k < |fs| && KeyUnique(fs, k) && fs[k].key == "description"
    requires fs[k].rule == DescriptionField.rule && !fs[k].nullable
    requires "description" in m && m["description"] == Str(d)
    ensures GetFieldError(ObjectSchema(fs), Obj(m), "description") == DescriptionError(d)
  {
    GetFieldErrorOfField(fs, m, k);
    DescriptionIssues(fs[k], m, d);
  }

  lemma TaskTitleError(m: map<string, Value>, t: string)
    requires "title" in m && m["title"] == Str(t)
    ensures GetFieldError(TaskSchema, Obj(m), "title") == TitleError(t)
  {
    TaskKeysUnique(1);
    TitleErrorOf(TaskFields, m, 1, t);
  }

  lemma CreateTitleError(m: map<string, Value>, t: string)
    requires "title" in m && m["title"] == Str(t)
    ensures GetFieldError(CreateTaskSchema, Obj(m), "title") == TitleError(t)
  {
    CreateKeysUnique(0);
    TitleErrorOf(CreateFields, m, 0, t);
  }

  lemma UpdateTitleError(m: map<string, Value>, t: string)
    requires "title" in m && m["title"] == Str(t)
    ensures GetFieldError(UpdateTaskSchema, Obj(m), "title") == TitleError(t)
  {
    UpdateFieldsShape();
    TitleErrorOf(UpdateTaskSchema.fields, m, 1, t);
  }

  /** A title is accepted exactly when it has 1 to 100 characters, alike in the task, the
      create and the update schema and in `isValidTitle`; an empty title is reported as
      "Title is required" and an overlong one as "Title must be less than 100 characters". */
  lemma TitleRule(m: map<string, Value>, t: string)
    requires "title" in m && m["title"] == Str(t)
    ensures GetFieldError(TaskSchema, Obj(m), "title") == TitleError(t)
    ensures GetFieldError(CreateTaskSchema, Obj(m), "title") == TitleError(t)
    ensures GetFieldError(UpdateTaskSchema, Obj(m), "title") == TitleError(t)
    ensures TitleError(t).None? <==> 1 <= |t| <= 100
    ensures IsValidTitle(t) <==> TitleError(t).None?
  {
    TaskTitleError(m, t);
    CreateTitleError(m, t);
    UpdateTitleError(m, t);
    TitleBounds(t);
  }

  /** The title messages appear exactly outside 1..100 characters, where `isValidTitle` fails. */
  lemma TitleBounds(t: string)
    ensures TitleError(t).None? <==> 1 <= |t| <= 100
    ensures IsValidTitle(t) <==> TitleError(t).None?
  {
  }

  lemma TaskDescriptionError(m: map<string, Value>, d: string)
    requires "description" in m && m["description"] == Str(d)
    ensures GetFieldError(TaskSchema, Obj(m), "description") == DescriptionError(d)
  {
    TaskKeysUnique(2);
    DescriptionErrorOf(TaskFields, m, 2, d);
  }

  lemma CreateDescriptionError(m: map<string, Value>, d: string)
    requires "description" in m && m["description"] == Str(d)
    ensures GetFieldError(CreateTaskSchema, Obj(m), "description") == DescriptionError(d)
  {
    CreateKeysUnique(1);
    DescriptionErrorOf(CreateFields, m, 1, d);
  }

  lemma UpdateDescriptionError(m: map<string, Value>, d: string)
    requires "description" in m && m["description"] == Str(d)
    ensures GetFieldError(UpdateTaskSchema, Obj(m), "description") == DescriptionError(d)
  {
    UpdateFieldsShape();
    DescriptionErrorOf(UpdateTaskSchema.fields, m, 2, d);
  }

  /** A description is accepted exactly when it has at most 500 characters (so the empty
      string passes), alike in the three schemas and in `isValidDescription`. */
  lemma DescriptionRule(m: map<string, Value>, d: string)
    requires "description" in m && m["description"] == Str(d)
    ensures GetFieldError(TaskSchema, Obj(m), "description") == DescriptionError(d)
    ensures GetFieldError(CreateTaskSchema, Obj(m), "description") == DescriptionError(d)
    ensures GetFieldError(UpdateTaskSchema, Obj(m), "description") == DescriptionError(d)
    ensures DescriptionError(d).None? <==> |d| <= 500
    ensures IsValidDescription(d) <==> DescriptionError(d).None?
  {
    TaskDescriptionError(m, d);
    CreateDescriptionError(m, d);
    UpdateDescriptionError(m, d);
  }

  // ---------------------------------------------------------------------------
  // status and priority
  // ---------------------------------------------------------------------------

  /** The status and priority enums accept exactly their three strings. */
  lemma EnumSchemas(v: Value)
    ensures Accepts(TaskStatusSchema, v) <==> v == Str("todo") || v == Str("in-progress") || v == Str("done")
    ensures Accepts(PrioritySchema, v) <==> v == Str("high") || v == Str("medium") || v == Str("low")
  {
  }

  lemma EnumFieldOfSchema(fs: seq<Field>, m: map<string, Value>, k: nat, s: Schema)
    requires k < |fs| && KeyUnique(fs, k)
    requires s.ValueSchema? && fs[k].rule == s.rule && !fs[k].nullable && !Missing(m, fs[k].key)
    ensures GetFieldError(ObjectSchema(fs), Obj(m), fs[k].key).None? <==> Accepts(s, m[fs[k].key])
  {
    GetFieldErrorOfField(fs, m, k);
  }

  lemma TaskKeysUnique(k: nat)
    requires k < |TaskFields|
    ensures KeyUnique(TaskFields, k)
  {
    var keys := ["id", "title", "description", "status", "priority", "dueDate",
                 "createdAt", "updatedAt", "aiGenerated", "originalPrompt"];
    assert forall j :: 0 <= j < |TaskFields| ==> TaskFields[j].key == keys[j];
  }

  lemma CreateKeysUnique(k: nat)
    requires k < |CreateFields|
    ensures KeyUnique(CreateFields, k)
  {
    var keys := ["title", "description", "status", "priority", "dueDate", "aiGenerated", "originalPrompt"];
    assert forall j :: 0 <= j < |CreateFields| ==> CreateFields[j].key == keys[j];
  }

  lemma TaskStatusVerdict(m: map<string, Value>)
    requires !Missing(m, "status")
    ensures GetFieldError(TaskSchema, Obj(m), "status").None? <==> Accepts(TaskStatusSchema, m["status"])
  {
    TaskKeysUnique(3);
    EnumFieldOfSchema(TaskFields, m, 3, TaskStatusSchema);
  }

  lemma CreateStatusVerdict(m: map<string, Value>)
    requires !Missing(m, "status")
    ensures GetFieldError(CreateTaskSchema, Obj(m), "status").None? <==> Accepts(TaskStatusSchema, m["status"])
  {
    CreateKeysUnique(2);
    EnumFieldOfSchema(CreateFields, m, 2, TaskStatusSchema);
  }

  lemma TaskPriorityVerdict(m: map<string, Value>)
    requires !Missing(m, "priority")
    ensures GetFieldError(TaskSchema, Obj(m), "priority").None? <==> Accepts(PrioritySchema, m["priority"])
  {
    TaskKeysUnique(4);
    EnumFieldOfSchema(TaskFields, m, 4, PrioritySchema);
  }

  lemma CreatePriorityVerdict(m: map<string, Value>)
    requires !Missing(m, "priority")
    ensures GetFieldError(CreateTaskSchema, Obj(m), "priority").None? <==> Accepts(PrioritySchema, m["priority"])
  {
    CreateKeysUnique(3);
    EnumFieldOfSchema(CreateFields, m, 3, PrioritySchema);
  }

  /** The status and priority fields of the task and create schemas say of a present
      value what the enum schemas say of it. */
  lemma StatusFieldRule(m: map<string, Value>)
    requires !Missing(m, "status")
    ensures GetFieldError(TaskSchema, Obj(m), "status").None? <==> Accepts(TaskStatusSchema, m["status"])
    ensures GetFieldError(CreateTaskSchema, Obj(m), "status").None? <==> Accepts(TaskStatusSchema, m["status"])
  {
    TaskStatusVerdict(m);
    CreateStatusVerdict(m);
  }

  lemma PriorityFieldRule(m: map<string, Value>)
    requires !Missing(m, "priority")
    ensures GetFieldError(TaskSchema, Obj(m), "priority").None? <==> Accepts(PrioritySchema, m["priority"])
    ensures GetFieldError(CreateTaskSchema, Obj(m), "priority").None? <==> Accepts(PrioritySchema, m["priority"])
  {
    TaskPriorityVerdict(m);
    CreatePriorityVerdict(m);
  }

  // ---------------------------------------------------------------------------
  // The update schema
  // ---------------------------------------------------------------------------

  /** The update schema demands `id` and holds every other field that is present to the
      rule the task schema gives it. */
  lemma UpdateChecksPresentFields(m: map<string, Value>)
    ensures Accepts(UpdateTaskSchema, Obj(m)) <==>
      !Missing(m, "id") &&
      forall i :: 0 <= i < |TaskFields| && !Missing(m, TaskFields[i].key) ==> FieldAccepts(TaskFields[i], m)
  {
    UpdateFieldsShape();
    var us := UpdateTaskSchema.fields;
    assert forall i :: 0 <= i < |us| ==>
      (FieldAccepts(us[i], m) <==>
        (Missing(m, TaskFields[i].key) ==> i != 0) &&
        (!Missing(m, TaskFields[i].key) ==> FieldAccepts(TaskFields[i], m)));
    if Accepts(UpdateTaskSchema, Obj(m)) {
      assert us[0] in us;
    } else {
      var f :| f in us && !FieldAccepts(f, m);
      var i :| 0 <= i < |us| && us[i] == f;
    }
  }

  /** An update lacking `id` is rejected, with the issue reported on `id`. */
  lemma UpdateRequiresId(m: map<string, Value>)
    requires Missing(m, "id")
    ensures Parse(UpdateTaskSchema, Obj(m)).Err?
    ensures GetFieldError(UpdateTaskSchema, Obj(m), "id") == Some(LibraryDefault)
  {
    UpdateChecksPresentFields(m);
    UpdateFieldsShape();
    GetFieldErrorOfField(UpdateTaskSchema.fields, m, 0);
  }

  /** `{id}` alone is a valid update when `id` is a UUID, and parses to itself. */
  lemma UpdateAcceptsIdAlone(id: string)
    requires IsUuid(id)
    ensures Parse(UpdateTaskSchema, Obj(map["id" := Str(id)])) == Ok(Obj(map["id" := Str(id)]))
  {
    var m := map["id" := Str(id)];
    UpdateChecksPresentFields(m);
    forall i | 0 <= i < |TaskFields| && !Missing(m, TaskFields[i].key)
      ensures FieldAccepts(TaskFields[i], m)
    {
      assert TaskFields[i].key == "id";
      assert i == 0;
    }
    UpdateFieldsShape();
    assert UpdateTaskSchema.fields[0] in UpdateTaskSchema.fields;
    ParseReturnsInput(UpdateTaskSchema, Obj(m));
  }

  // ---------------------------------------------------------------------------
  // The query schema
  // ---------------------------------------------------------------------------

  /** Every query field is optional; `limit` must lie in [1, 100] and `offset` be at least 0. */
  lemma NumberFieldAccepts(f: Field, m: map<string, Value>, lo: real, hi: Option<real>)
    requires !f.nullable
    requires f.rule == NumberRule(if hi.Some? then [AtLeast(lo), AtMost(hi.value)] else [AtLeast(lo)])
    ensures FieldAccepts(f, m) <==>
      if Missing(m, f.key) then f.optional
      else m[f.key].Num? && lo <= m[f.key].x && (hi.Some? ==> m[f.key].x <= hi.value)
  {
    var bounds := f.rule.bounds;
    assert bounds[0] in bounds;
    if hi.Some? {
      assert bounds[1] in bounds;
    }
  }

  lemma QueryAccepts(m: map<string, Value>)
    ensures Accepts(TaskQuerySchema, Obj(m)) <==>
      (Missing(m, "status") || Accepts(TaskStatusSchema, m["status"])) &&
      (Missing(m, "priority") || Accepts(PrioritySchema, m["priority"])) &&
      (Missing(m, "limit") || (m["limit"].Num? && 1.0 <= m["limit"].x <= 100.0)) &&
      (Missing(m, "offset") || (m["offset"].Num? && 0.0 <= m["offset"].x))
  {
    NumberFieldAccepts(LimitField, m, 1.0, Some(100.0));
    NumberFieldAccepts(OffsetField, m, 0.0, None);
    assert Accepts(TaskQuerySchema, Obj(m)) <==>
      FieldAccepts(QueryStatusField, m) && FieldAccepts(QueryPriorityField, m) &&
      FieldAccepts(LimitField, m) && FieldAccepts(OffsetField, m);
  }

  lemma EmptyQuery()
    ensures Parse(TaskQuerySchema, Obj(map[])) == Ok(Obj(map[]))
  {
    QueryAccepts(map[]);
    ParseReturnsInput(TaskQuerySchema, Obj(map[]));
  }

  // ---------------------------------------------------------------------------
  // Identifiers
  // ---------------------------------------------------------------------------

  /** The identifier format the tests use is a UUID; the sample data's ids are not. */
  lemma UuidExamples()
    ensures IsUuid("123e4567-e89b-12d3-a456-426614174000")
    ensures !IsUuid("invalid-id")
    ensures !IsUuid("task-001")
  {
    var s := "123e4567-e89b-12d3-a456-426614174000";
    forall i | 0 <= i < |s|
      ensures if i == 8 || i == 13 || i == 18 || i == 23 then s[i] == '-' else IsHexDigit(s[i])
    {
    }
  }
}

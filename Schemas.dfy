/** The declarative validation rules for tasks (src/lib/types/schemas.ts), modelled as a
    small validator: a schema is data, `Issues` lists what it objects to in a value, in
    field-declaration order and, within a field, in check order, and `Parse` returns the
    accepted value or throws those issues. `Accepts` is the independent statement of
    which values a schema admits. */
module Schemas {
  import opened Wrappers
  import opened Values

  // ---------------------------------------------------------------------------
  // Rules and schemas
  // ---------------------------------------------------------------------------

  /** The issue codes the rules below can raise. */
  datatype IssueCode = InvalidType | InvalidEnumValue | InvalidString | TooSmall | TooBig

  /** A message the schema spells out, or the validation library's own default text for
      the issue's code (that text is not part of this model). */
  datatype Message = Custom(text: string) | LibraryDefault

  /** One validation failure: the path of keys to the offending value (empty for the
      value itself), the code, and the message. */
  datatype Issue = Issue(path: seq<string>, code: IssueCode, message: Message)

  /** A check on a string's length (in characters) or shape. */
  datatype StringCheck =
    | MinLength(min: nat, minMessage: Message)
    | MaxLength(max: nat, maxMessage: Message)
    | Uuid(uuidMessage: Message)

  /** An inclusive bound on a number. */
  datatype NumberCheck = AtLeast(lower: real) | AtMost(upper: real)

  /** What a single value must be. */
  datatype Rule =
    | StringRule(checks: seq<StringCheck>)
    | NumberRule(bounds: seq<NumberCheck>)
    | EnumRule(options: seq<string>)
    | BooleanRule
    | DateRule

  /** One key of an object schema; `nullable` admits `null`, `optional` admits a missing key. */
  datatype Field = Field(key: string, rule: Rule, nullable: bool, optional: bool)

  /** An object schema (fields in declaration order) or a schema for a single value. */
  datatype Schema = ObjectSchema(fields: seq<Field>) | ValueSchema(rule: Rule)

  /** The keys an object schema declares. */
  function FieldKeys(fs: seq<Field>): set<string> {
    set f | f in fs :: f.key
  }

  // ---------------------------------------------------------------------------
  // What a rule accepts
  // ---------------------------------------------------------------------------

  predicate IsHexDigit(c: char) {
    '0' <= c <= '9' || 'a' <= c <= 'f' || 'A' <= c <= 'F'
  }

  /** The textual UUID shape: 8-4-4-4-12 hexadecimal digits separated by hyphens. */
  predicate IsUuid(s: string) {
    |s| == 36 &&
    forall i :: 0 <= i < |s| ==>
      if i == 8 || i == 13 || i == 18 || i == 23 then s[i] == '-' else IsHexDigit(s[i])
  }

  predicate StringCheckPasses(c: StringCheck, s: string) {
    match c
    case MinLength(n, _) => |s| >= n
    case MaxLength(n, _) => |s| <= n
    case Uuid(_) => IsUuid(s)
  }

  predicate NumberCheckPasses(c: NumberCheck, x: real) {
    match c
    case AtLeast(lo) => lo <= x
    case AtMost(hi) => x <= hi
  }

  /** The values a rule admits. */
  predicate RuleAccepts(rule: Rule, v: Value) {
    match rule
    case StringRule(checks) => v.Str? && forall c :: c in checks ==> StringCheckPasses(c, v.s)
    case NumberRule(bounds) => v.Num? && forall c :: c in bounds ==> NumberCheckPasses(c, v.x)
    case EnumRule(options) => v.Str? && v.s in options
    case BooleanRule => v.Bool?
    case DateRule => v.Date?
  }

  /** A key that is absent, or present with the value `undefined`, is missing. */
  predicate Missing(m: map<string, Value>, key: string) {
    key !in m || m[key] == Undefined
  }

  /** The objects whose entry for `f` is admissible. */
  predicate FieldAccepts(f: Field, m: map<string, Value>) {
    if Missing(m, f.key) then f.optional
    else (f.nullable && m[f.key] == Null) || RuleAccepts(f.rule, m[f.key])
  }

  /** The values a schema admits: for an object schema, objects (not arrays, dates or
      `null`) every declared field of which is admissible; undeclared keys are ignored. */
  predicate Accepts(s: Schema, v: Value) {
    match s
    case ObjectSchema(fs) => v.Obj? && forall f :: f in fs ==> FieldAccepts(f, v.fields)
    case ValueSchema(rule) => RuleAccepts(rule, v)
  }

  // ---------------------------------------------------------------------------
  // The issues a schema raises
  // ---------------------------------------------------------------------------

  function StringCheckIssue(c: StringCheck, path: seq<string>): Issue {
    match c
    case MinLength(_, msg) => Issue(path, TooSmall, msg)
    case MaxLength(_, msg) => Issue(path, TooBig, msg)
    case Uuid(msg) => Issue(path, InvalidString, msg)
  }

  /** Every check runs; each one that fails contributes one issue, in check order. */
  function StringIssues(checks: seq<StringCheck>, s: string, path: seq<string>): (r: seq<Issue>)
    ensures r == [] <==> forall c :: c in checks ==> StringCheckPasses(c, s)
    ensures forall c :: c in checks && !StringCheckPasses(c, s) ==> StringCheckIssue(c, path) in r
    ensures forall x :: x in r ==> exists c :: c in checks && !StringCheckPasses(c, s) && x == StringCheckIssue(c, path)
    ensures forall i :: 0 <= i < |r| ==> r[i].path == path
    ensures |r| <= |checks|
  {
    if checks == [] then []
    else
      (if StringCheckPasses(checks[0], s) then [] else [StringCheckIssue(checks[0], path)])
      + StringIssues(checks[1..], s, path)
  }

  function NumberIssues(bounds: seq<NumberCheck>, x: real, path: seq<string>): (r: seq<Issue>)
    ensures r == [] <==> forall c :: c in bounds ==> NumberCheckPasses(c, x)
    ensures forall i :: 0 <= i < |r| ==> r[i].path == path
    ensures |r| <= |bounds|
  {
    if bounds == [] then []
    else
      (if NumberCheckPasses(bounds[0], x) then []
       else [Issue(path, if bounds[0].AtLeast? then TooSmall else TooBig, LibraryDefault)])
      + NumberIssues(bounds[1..], x, path)
  }

  /** The kind of value a rule expects. */
  predicate RuleTypeMatches(rule: Rule, v: Value) {
    match rule
    case StringRule(_) => v.Str?
    case NumberRule(_) => v.Num?
    case EnumRule(_) => v.Str?
    case BooleanRule => v.Bool?
    case DateRule => v.Date?
  }

  /** A value of the wrong type raises one `InvalidType` issue and no check runs. */
  function RuleIssues(rule: Rule, v: Value, path: seq<string>): (r: seq<Issue>)
    ensures r == [] <==> RuleAccepts(rule, v)
    ensures !RuleTypeMatches(rule, v) ==> r == [Issue(path, InvalidType, LibraryDefault)]
    ensures forall i :: 0 <= i < |r| ==> r[i].path == path
  {
    var wrongType := [Issue(path, InvalidType, LibraryDefault)];
    match rule
    case StringRule(checks) => if v.Str? then StringIssues(checks, v.s, path) else wrongType
    case NumberRule(bounds) => if v.Num? then NumberIssues(bounds, v.x, path) else wrongType
    case EnumRule(options) =>
      if !v.Str? then wrongType
      else if v.s in options then []
      else [Issue(path, InvalidEnumValue, LibraryDefault)]
    case BooleanRule => if v.Bool? then [] else wrongType
    case DateRule => if v.Date? then [] else wrongType
  }

  /** A missing required key raises one `InvalidType` issue ("Required" in the library). */
  function FieldIssues(f: Field, m: map<string, Value>): (r: seq<Issue>)
    ensures r == [] <==> FieldAccepts(f, m)
    ensures forall i :: 0 <= i < |r| ==> r[i].path == [f.key]
  {
    if Missing(m, f.key) then
      (if f.optional then [] else [Issue([f.key], InvalidType, LibraryDefault)])
    else if f.nullable && m[f.key] == Null then []
    else RuleIssues(f.rule, m[f.key], [f.key])
  }

  /** The issues of every field, in declaration order. */
  function ObjectIssues(fs: seq<Field>, m: map<string, Value>): (r: seq<Issue>)
    ensures r == [] <==> forall f :: f in fs ==> FieldAccepts(f, m)
    ensures forall i :: 0 <= i < |r| ==> |r[i].path| == 1 && r[i].path[0] in FieldKeys(fs)
  {
    if fs == [] then []
    else FieldIssues(fs[0], m) + ObjectIssues(fs[1..], m)
  }

  function Issues(s: Schema, v: Value): (r: seq<Issue>)
    ensures r == [] <==> Accepts(s, v)
  {
    match s
    case ObjectSchema(fs) =>
      if v.Obj? then ObjectIssues(fs, v.fields) else [Issue([], InvalidType, LibraryDefault)]
    case ValueSchema(rule) => RuleIssues(rule, v, [])
  }

  /** An accepted object keeps only its declared keys (the library's default "strip"):
      the result is the part of the input on declared keys, and an input with no other
      keys comes back as it is. */
  function Stripped(fs: seq<Field>, m: map<string, Value>): (r: map<string, Value>)
    ensures r.Keys <= FieldKeys(fs)
    ensures forall k :: k in r ==> k in m && r[k] == m[k]
    ensures forall k :: k in m && k in FieldKeys(fs) ==> k in r
    ensures m.Keys <= FieldKeys(fs) ==> r == m
  {
    map k | k in m && k in FieldKeys(fs) :: m[k]
  }

  /** Stripping is idempotent. */
  lemma StrippedTwice(fs: seq<Field>, m: map<string, Value>)
    ensures Stripped(fs, Stripped(fs, m)) == Stripped(fs, m)
  {
  }

  /** `schema.parse(data)`: the accepted value, or the issues that are thrown. */
  function Parse(s: Schema, v: Value): (r: Result<Value, seq<Issue>>)
    ensures r.Ok? <==> Accepts(s, v)
    ensures r.Err? ==> r.error != []
    ensures r.Ok? && s.ValueSchema? ==> r.value == v
    ensures r.Ok? && s.ObjectSchema? ==>
      v.Obj? && r.value.Obj? && r.value.fields.Keys == v.fields.Keys * FieldKeys(s.fields) &&
      forall k :: k in r.value.fields ==> r.value.fields[k] == v.fields[k]
  {
    var issues := Issues(s, v);
    if issues != [] then Err(issues)
    else
      match s
      case ObjectSchema(fs) => Ok(Obj(Stripped(fs, v.fields)))
      case ValueSchema(_) => Ok(v)
  }

  /** A successful parse of a value that has no undeclared keys returns that value. */
  lemma ParseReturnsInput(s: Schema, v: Value)
    requires Accepts(s, v)
    requires s.ObjectSchema? ==> v.fields.Keys <= FieldKeys(s.fields)
    ensures Parse(s, v) == Ok(v)
  {
    if s.ObjectSchema? {
      assert Stripped(s.fields, v.fields) == v.fields;
    }
  }

  // ---------------------------------------------------------------------------
  // Schema combinators
  // ---------------------------------------------------------------------------

  /** `.partial()`: every field keeps its key and now also admits a missing entry. */
  function PartialFields(fs: seq<Field>): (r: seq<Field>)
    ensures |r| == |fs|
    ensures forall i :: 0 <= i < |fs| ==> r[i].key == fs[i].key
    ensures forall i, m :: 0 <= i < |fs| ==>
      (FieldAccepts(r[i], m) <==> Missing(m, fs[i].key) || FieldAccepts(fs[i], m))
  {
    seq(|fs|, i requires 0 <= i < |fs| => fs[i].(optional := true))
  }

  /** `.required({key: true})`: the field with that key now rejects a missing entry and
      otherwise judges as before; the other fields are untouched. */
  function RequireField(fs: seq<Field>, key: string): (r: seq<Field>)
    ensures |r| == |fs|
    ensures forall i :: 0 <= i < |fs| ==> r[i].key == fs[i].key
    ensures forall i, m :: 0 <= i < |fs| && fs[i].key == key ==>
      (FieldAccepts(r[i], m) <==> !Missing(m, key) && FieldAccepts(fs[i], m))
    ensures forall i :: 0 <= i < |fs| && fs[i].key != key ==> r[i] == fs[i]
  {
    var r := seq(|fs|, i requires 0 <= i < |fs| =>
      if fs[i].key == key then fs[i].(optional := false) else fs[i]);
    assert forall i, m :: 0 <= i < |fs| && fs[i].key == key ==>
      (FieldAccepts(r[i], m) <==> !Missing(m, key) && FieldAccepts(fs[i], m)) by {
      forall i, m | 0 <= i < |fs| && fs[i].key == key
        ensures FieldAccepts(r[i], m) <==> !Missing(m, key) && FieldAccepts(fs[i], m)
      {
        assert r[i] == fs[i].(optional := false);
        assert r[i].rule == fs[i].rule && r[i].nullable == fs[i].nullable && r[i].key == key;
      }
    }
    r
  }

  // ---------------------------------------------------------------------------
  // The schemas of schemas.ts
  // ---------------------------------------------------------------------------

  const TaskStatusSchema: Schema := ValueSchema(EnumRule(["todo", "in-progress", "done"]))

  const PrioritySchema: Schema := ValueSchema(EnumRule(["high", "medium", "low"]))

  // The fields of TaskSchema, in declaration order.
  const IdField := Field("id", StringRule([Uuid(Custom("Invalid task ID format"))]), false, false)
  const TitleField := Field("title", StringRule([MinLength(1, Custom("Title is required")),
                                                 MaxLength(100, Custom("Title must be less than 100 characters"))]), false, false)
  const DescriptionField := Field("description", StringRule([MaxLength(500, Custom("Description must be less than 500 characters"))]), false, false)
  const StatusField := Field("status", TaskStatusSchema.rule, false, false)
  const PriorityField := Field("priority", PrioritySchema.rule, false, false)
  const DueDateField := Field("dueDate", DateRule, true, false)
  const CreatedAtField := Field("createdAt", DateRule, false, false)
  const UpdatedAtField := Field("updatedAt", DateRule, false, false)
  const AiGeneratedField := Field("aiGenerated", BooleanRule, false, false)
  const OriginalPromptField := Field("originalPrompt", StringRule([]), true, false)

  const TaskFields: seq<Field> := [
    IdField, TitleField, DescriptionField, StatusField, PriorityField,
    DueDateField, CreatedAtField, UpdatedAtField, AiGeneratedField, OriginalPromptField
  ]

  const TaskSchema: Schema := ObjectSchema(TaskFields)

  // The fields of CreateTaskSchema, which spells its rules out again.
  const CreateTitleField := Field("title", StringRule([MinLength(1, Custom("Title is required")),
                                                       MaxLength(100, Custom("Title must be less than 100 characters"))]), false, false)
  const CreateDescriptionField := Field("description", StringRule([MaxLength(500, Custom("Description must be less than 500 characters"))]), false, false)
  const CreateStatusField := Field("status", TaskStatusSchema.rule, false, false)
  const CreatePriorityField := Field("priority", PrioritySchema.rule, false, false)
  const CreateDueDateField := Field("dueDate", DateRule, true, false)
  const CreateAiGeneratedField := Field("aiGenerated", BooleanRule, false, false)
  const CreateOriginalPromptField := Field("originalPrompt", StringRule([]), true, false)

  const CreateFields: seq<Field> := [
    CreateTitleField, CreateDescriptionField, CreateStatusField, CreatePriorityField,
    CreateDueDateField, CreateAiGeneratedField, CreateOriginalPromptField
  ]

  const CreateTaskSchema: Schema := ObjectSchema(CreateFields)

  const UpdateTaskSchema: Schema := ObjectSchema(RequireField(PartialFields(TaskFields), "id"))

  // The fields of TaskQuerySchema.
  const QueryStatusField := Field("status", TaskStatusSchema.rule, false, true)
  const QueryPriorityField := Field("priority", PrioritySchema.rule, false, true)
  const LimitField := Field("limit", NumberRule([AtLeast(1.0), AtMost(100.0)]), false, true)
  const OffsetField := Field("offset", NumberRule([AtLeast(0.0)]), false, true)

  const QueryFields: seq<Field> := [QueryStatusField, QueryPriorityField, LimitField, OffsetField]

  const TaskQuerySchema: Schema := ObjectSchema(QueryFields)

  // ---------------------------------------------------------------------------
  // Parse wrappers
  // ---------------------------------------------------------------------------

  /** `parseTask`: a task-shaped object comes back unchanged; anything else throws. */
  function ParseTask(data: Value): (r: Result<Value, seq<Issue>>)
    ensures r.Ok? <==> Accepts(TaskSchema, data)
    ensures r.Ok? ==>
      data.Obj? && r.value.Obj? && r.value.fields.Keys == data.fields.Keys * FieldKeys(TaskFields) &&
      forall k :: k in r.value.fields ==> r.value.fields[k] == data.fields[k]
    ensures r.Ok? && data.Obj? && data.fields.Keys <= FieldKeys(TaskFields) ==> r.value == data
  {
    Parse(TaskSchema, data)
  }

  /** `parseCreateTaskRequest`. */
  function ParseCreateTaskRequest(data: Value): (r: Result<Value, seq<Issue>>)
    ensures r.Ok? <==> Accepts(CreateTaskSchema, data)
    ensures r.Ok? ==>
      data.Obj? && r.value.Obj? && r.value.fields.Keys == data.fields.Keys * FieldKeys(CreateFields) &&
      forall k :: k in r.value.fields ==> r.value.fields[k] == data.fields[k]
    ensures r.Ok? && data.Obj? && data.fields.Keys <= FieldKeys(CreateFields) ==> r.value == data
  {
    Parse(CreateTaskSchema, data)
  }

  /** `parseUpdateTaskRequest`. */
  function ParseUpdateTaskRequest(data: Value): (r: Result<Value, seq<Issue>>)
    ensures r.Ok? <==> Accepts(UpdateTaskSchema, data)
    ensures r.Ok? ==>
      data.Obj? && r.value.Obj? && r.value.fields.Keys == data.fields.Keys * FieldKeys(UpdateTaskSchema.fields) &&
      forall k :: k in r.value.fields ==> r.value.fields[k] == data.fields[k]
    ensures r.Ok? && data.Obj? && data.fields.Keys <= FieldKeys(UpdateTaskSchema.fields) ==> r.value == data
  {
    Parse(UpdateTaskSchema, data)
  }

  // ---------------------------------------------------------------------------
  // ValidationHelpers
  // ---------------------------------------------------------------------------

  /** `isValidTitle`: the title bounds, with the library's own messages. */
  function IsValidTitle(title: string): (b: bool)
    ensures b <==> 1 <= |title| <= 100
  {
    var min, max := MinLength(1, LibraryDefault), MaxLength(100, LibraryDefault);
    assert StringCheckPasses(min, title) && StringCheckPasses(max, title) <==> 1 <= |title| <= 100;
    assert [min, max][0] == min && [min, max][1] == max;
    Parse(ValueSchema(StringRule([min, max])), Str(title)).Ok?
  }

  /** `isValidDescription`: at most 500 characters, so the empty string passes. */
  function IsValidDescription(description: string): (b: bool)
    ensures b <==> |description| <= 500
  {
    Parse(ValueSchema(StringRule([MaxLength(500, LibraryDefault)])), Str(description)).Ok?
  }

  /** The issue's path starts with `field` (`err.path[0] === field`). */
  predicate HeadIs(issue: Issue, field: string) {
    |issue.path| > 0 && issue.path[0] == field
  }

  /** `issues.find(err => err.path[0] === field)?.message`. */
  function FirstMessageAt(issues: seq<Issue>, field: string): (r: Option<Message>)
    ensures r.None? <==> forall i :: 0 <= i < |issues| ==> !HeadIs(issues[i], field)
    ensures r.Some? ==>
      exists i :: 0 <= i < |issues| && HeadIs(issues[i], field) && issues[i].message == r.value &&
        forall j :: 0 <= j < i ==> !HeadIs(issues[j], field)
  {
    if issues == [] then None
    else if HeadIs(issues[0], field) then Some(issues[0].message)
    else
      FirstMessageAt(issues[1..], field)
  }

  /** `getFieldError(schema, data, field)`: nothing when the schema accepts the data;
      otherwise the message of the first issue on `field`, if there is one. */
  function GetFieldError(s: Schema, data: Value, field: string): (r: Option<Message>)
    ensures Accepts(s, data) ==> r.None?
    ensures r.None? && !Accepts(s, data) ==>
      forall i :: 0 <= i < |Issues(s, data)| ==> !HeadIs(Issues(s, data)[i], field)
    ensures r.Some? ==>
      exists i :: 0 <= i < |Issues(s, data)| && HeadIs(Issues(s, data)[i], field) &&
        Issues(s, data)[i].message == r.value &&
        forall j :: 0 <= j < i ==> !HeadIs(Issues(s, data)[j], field)
  {
    match Parse(s, data)
    case Ok(_) => None
    case Err(issues) => FirstMessageAt(issues, field)
  }
}

/** The zod schemas `CreateTaskDto` and `UpdateTaskDto = CreateTaskDto.partial()`
    (backend/src/services/taskService.ts). A request body is a JSON object;
    validation is pure and either yields a normalised payload or the set of
    fields that failed. */
module TaskValidation {
  import opened Wrappers
  import opened TaskModel

  /** A JSON value as far as the schema distinguishes it: a string, or anything
      else (number, boolean, null, object, array), which every field rejects. */
  datatype Json = JString(s: string) | JNonString

  /** A request body: a JSON object. Keys the schema does not name are stripped. */
  type Body = map<string, Json>

  /** `z.string().datetime()` followed by `new Date(s).getTime()`: the timestamp
      of an ISO-8601 date-time string, or None when zod's check rejects it. */
  type DateParser = string -> Option<int>

  datatype Field = TitleField | DescriptionField | DueDateField | PriorityField | StatusField | AssignedToField

  /** The key under which each field appears in the body. */
  function Key(f: Field): string {
    match f
    case TitleField => "title"
    case DescriptionField => "description"
    case DueDateField => "dueDate"
    case PriorityField => "priority"
    case StatusField => "status"
    case AssignedToField => "assignedToId"
  }

  /** `CreateTaskDto` requires a title; `UpdateTaskDto` makes every field optional. */
  datatype Mode = Create | Update

  /** The normalised output of `CreateTaskDto.parse`, with the date already a timestamp. */
  datatype CreateInput = CreateInput(
    title: string,
    description: Option<string>,
    dueDate: Option<int>,
    priority: Priority,
    status: Status,
    assignedToId: Option<UserId>)

  /** The output of `UpdateTaskDto.parse`: None is a field the update does not mention. */
  datatype UpdateInput = UpdateInput(
    title: Option<string>,
    description: Option<string>,
    dueDate: Option<int>,
    priority: Option<Priority>,
    status: Option<Status>,
    assignedToId: Option<UserId>)

  function Lookup(body: Body, f: Field): Option<Json> {
    if Key(f) in body then Some(body[Key(f)]) else None
  }

  /** zod's verdict on one field of the body. */
  predicate FieldOk(body: Body, f: Field, mode: Mode, isoTime: DateParser) {
    match Lookup(body, f)
    case None => f != TitleField || mode == Update
    case Some(JNonString) => false
    case Some(JString(s)) =>
      match f
      case TitleField => Utf16Length(s) <= MaxTitleLength
      case DueDateField => isoTime(s).Some?
      case PriorityField => ParsePriority(s).Some?
      case StatusField => ParseStatus(s).Some?
      case _ => true
  }

  /** Every field zod reports an issue for. */
  function Issues(body: Body, mode: Mode, isoTime: DateParser): set<Field> {
    set f: Field | !FieldOk(body, f, mode, isoTime)
  }

  /** The string in a field that passed validation, None when the field is absent. */
  function StringOf(body: Body, f: Field): Option<string> {
    match Lookup(body, f)
    case Some(JString(s)) => Some(s)
    case _ => None
  }

  function DateOf(body: Body, isoTime: DateParser): Option<int> {
    match StringOf(body, DueDateField)
    case Some(s) => isoTime(s)
    case None => None
  }

  function PriorityOf(body: Body): Option<Priority> {
    match StringOf(body, PriorityField)
    case Some(s) => ParsePriority(s)
    case None => None
  }

  function StatusOf(body: Body): Option<Status> {
    match StringOf(body, StatusField)
    case Some(s) => ParseStatus(s)
    case None => None
  }

  /** `CreateTaskDto.parse`. */
  function ValidateCreate(body: Body, isoTime: DateParser): (r: Result<CreateInput, set<Field>>)
    ensures r.Failure? <==> exists f :: !FieldOk(body, f, Create, isoTime)
    ensures r.Failure? ==> forall f :: f in r.error <==> !FieldOk(body, f, Create, isoTime)
    // title: required, a string of at most 100 UTF-16 code units
    ensures (Key(TitleField) !in body || !body[Key(TitleField)].JString?
             || Utf16Length(body[Key(TitleField)].s) > MaxTitleLength)
            ==> r.Failure? && TitleField in r.error
    ensures r.Success? ==> body[Key(TitleField)] == JString(r.value.title) && Utf16Length(r.value.title) <= MaxTitleLength
    // priority and status: the enum's value, or the default when absent
    ensures r.Success? && Key(PriorityField) !in body ==> r.value.priority == DefaultPriority
    ensures r.Success? && Key(PriorityField) in body ==> body[Key(PriorityField)] == JString(PriorityName(r.value.priority))
    ensures r.Success? && Key(StatusField) !in body ==> r.value.status == DefaultStatus
    ensures r.Success? && Key(StatusField) in body ==> body[Key(StatusField)] == JString(StatusName(r.value.status))
    // optional fields: present exactly when the body has them
    ensures r.Success? ==> (r.value.description.Some? <==> Key(DescriptionField) in body)
    ensures r.Success? ==> (r.value.assignedToId.Some? <==> Key(AssignedToField) in body)
    ensures r.Success? && r.value.description.Some? ==> body[Key(DescriptionField)] == JString(r.value.description.value)
    ensures r.Success? && r.value.assignedToId.Some? ==> body[Key(AssignedToField)] == JString(r.value.assignedToId.value)
    ensures r.Success? ==> (r.value.dueDate.Some? <==> Key(DueDateField) in body)
    ensures r.Success? && Key(DueDateField) in body ==>
              body[Key(DueDateField)].JString? && isoTime(body[Key(DueDateField)].s) == r.value.dueDate
  {
    var issues := Issues(body, Create, isoTime);
    if issues != {} then Failure(issues)
    else
      assert TitleField !in issues;
      assert PriorityField !in issues;
      assert StatusField !in issues;
      assert DueDateField !in issues;
      assert DescriptionField !in issues;
      assert AssignedToField !in issues;
      Success(CreateInput(
        StringOf(body, TitleField).value,
        StringOf(body, DescriptionField),
        DateOf(body, isoTime),
        PriorityOf(body).GetOr(DefaultPriority),
        StatusOf(body).GetOr(DefaultStatus),
        StringOf(body, AssignedToField)))
  }

  /** `UpdateTaskDto.parse`: the same rules, but an absent field stays absent
      (no default is applied). */
  function ValidateUpdate(body: Body, isoTime: DateParser): (r: Result<UpdateInput, set<Field>>)
    ensures r.Failure? <==> exists f :: !FieldOk(body, f, Update, isoTime)
    ensures r.Failure? ==> forall f :: f in r.error <==> !FieldOk(body, f, Update, isoTime)
    ensures (Key(TitleField) in body && (!body[Key(TitleField)].JString? || Utf16Length(body[Key(TitleField)].s) > MaxTitleLength))
            ==> r.Failure? && TitleField in r.error
    ensures r.Success? ==> r.value.title == StringOf(body, TitleField)
    ensures r.Success? && r.value.title.Some? ==> Utf16Length(r.value.title.value) <= MaxTitleLength
    ensures r.Success? ==> (r.value.priority.Some? <==> Key(PriorityField) in body)
    ensures r.Success? && r.value.priority.Some? ==> body[Key(PriorityField)] == JString(PriorityName(r.value.priority.value))
    ensures r.Success? ==> (r.value.status.Some? <==> Key(StatusField) in body)
    ensures r.Success? && r.value.status.Some? ==> body[Key(StatusField)] == JString(StatusName(r.value.status.value))
    ensures r.Success? ==> (r.value.description.Some? <==> Key(DescriptionField) in body)
    ensures r.Success? ==> (r.value.assignedToId.Some? <==> Key(AssignedToField) in body)
    ensures r.Success? && r.value.description.Some? ==> body[Key(DescriptionField)] == JString(r.value.description.value)
    ensures r.Success? && r.value.assignedToId.Some? ==> body[Key(AssignedToField)] == JString(r.value.assignedToId.value)
    ensures r.Success? ==> (r.value.dueDate.Some? <==> Key(DueDateField) in body)
    ensures r.Success? && Key(DueDateField) in body ==>
              body[Key(DueDateField)].JString? && isoTime(body[Key(DueDateField)].s) == r.value.dueDate
  {
    var issues := Issues(body, Update, isoTime);
    if issues != {} then Failure(issues)
    else
      assert TitleField !in issues;
      assert PriorityField !in issues;
      assert StatusField !in issues;
      assert DueDateField !in issues;
      assert DescriptionField !in issues;
      assert AssignedToField !in issues;
      Success(UpdateInput(
        StringOf(body, TitleField),
        StringOf(body, DescriptionField),
        DateOf(body, isoTime),
        PriorityOf(body),
        StatusOf(body),
        StringOf(body, AssignedToField)))
  }

  /** `UpdateTaskDto` is `CreateTaskDto.partial()`: the issues it reports are the
      create issues less the missing-title one. */
  lemma {:induction false} PartialDropsOnlyRequiredTitle(body: Body, isoTime: DateParser)
    ensures Issues(body, Update, isoTime) ==
            Issues(body, Create, isoTime) - (if Key(TitleField) in body then {} else {TitleField})
    ensures ValidateCreate(body, isoTime).Success? ==> ValidateUpdate(body, isoTime).Success?
  {
  }

  /** The limit counts UTF-16 code units: 51 emoji are 102 units, so such a
      title fails on both schemas although it has only 51 characters. */
  lemma {:induction false} AstralTitleTooLong(body: Body, isoTime: DateParser)
    requires Key(TitleField) in body && body[Key(TitleField)].JString?
    requires |body[Key(TitleField)].s| == 51
    requires forall i :: 0 <= i < 51 ==> (body[Key(TitleField)].s[i] as int) >= FirstAstral
    ensures ValidateCreate(body, isoTime).Failure? && TitleField in ValidateCreate(body, isoTime).error
    ensures ValidateUpdate(body, isoTime).Failure? && TitleField in ValidateUpdate(body, isoTime).error
  {
    AstralLengthDoubles(body[Key(TitleField)].s);
  }

  /** Keys the schema does not name, such as a client-supplied `creatorId`, are
      stripped: they change neither the verdict nor the payload. */
  lemma {:induction false} UnknownKeysIgnored(body: Body, k: string, v: Json, isoTime: DateParser)
    requires forall f :: Key(f) != k
    ensures ValidateCreate(body[k := v], isoTime) == ValidateCreate(body, isoTime)
    ensures ValidateUpdate(body[k := v], isoTime) == ValidateUpdate(body, isoTime)
  {
    var b := body[k := v];
    forall f ensures Lookup(b, f) == Lookup(body, f) {
      assert Key(f) != k;
    }
    forall m: Mode ensures Issues(b, m, isoTime) == Issues(body, m, isoTime) {
      forall f ensures FieldOk(b, f, m, isoTime) == FieldOk(body, f, m, isoTime) {
        assert Lookup(b, f) == Lookup(body, f);
      }
    }
    assert StringOf(b, TitleField) == StringOf(body, TitleField);
    assert StringOf(b, DescriptionField) == StringOf(body, DescriptionField);
    assert StringOf(b, AssignedToField) == StringOf(body, AssignedToField);
    assert StringOf(b, DueDateField) == StringOf(body, DueDateField);
    assert StringOf(b, PriorityField) == StringOf(body, PriorityField);
    assert StringOf(b, StatusField) == StringOf(body, StatusField);
  }
}

/** The stored task record and the constraints of its Mongoose schema
    (backend/src/models/Task.ts). */
module TaskModel {
  import opened Wrappers

  type TaskId = nat
  type UserId = string

  /** `maxlength: 100` on the title, counted as JavaScript counts `length`. */
  const MaxTitleLength := 100

  /** The first character that UTF-16 writes as a surrogate pair. */
  const FirstAstral := 0x1_0000

  /** JavaScript's `length` of a string: its number of UTF-16 code units, so a
      character outside the Basic Multilingual Plane counts twice. */
  function Utf16Length(s: string): (n: nat)
    ensures |s| <= n <= 2 * |s|
    ensures n == |s| <==> forall i :: 0 <= i < |s| ==> (s[i] as int) < FirstAstral
    decreases |s|
  {
    if s == [] then 0
    else (if (s[0] as int) < FirstAstral then 1 else 2) + Utf16Length(s[1..])
  }

  datatype Priority = Low | Medium | High | Urgent
  datatype Status = ToDo | InProgress | Review | Completed

  const DefaultPriority := Medium
  const DefaultStatus := ToDo

  /** The string stored for each priority. */
  function PriorityName(p: Priority): string {
    match p
    case Low => "Low"
    case Medium => "Medium"
    case High => "High"
    case Urgent => "Urgent"
  }

  /** The string stored for each status. */
  function StatusName(s: Status): string {
    match s
    case ToDo => "To Do"
    case InProgress => "In Progress"
    case Review => "Review"
    case Completed => "Completed"
  }

  /** The enum check: a string is accepted exactly when it is the name of a priority. */
  function ParsePriority(s: string): (r: Option<Priority>)
    ensures r.Some? ==> PriorityName(r.value) == s
    ensures (exists p :: PriorityName(p) == s) ==> r.Some?
  {
    if s == "Low" then Some(Low)
    else if s == "Medium" then Some(Medium)
    else if s == "High" then Some(High)
    else if s == "Urgent" then Some(Urgent)
    else None
  }

  /** The enum check for status, in the same shape as ParsePriority. */
  function ParseStatus(s: string): (r: Option<Status>)
    ensures r.Some? ==> StatusName(r.value) == s
    ensures (exists st :: StatusName(st) == s) ==> r.Some?
  {
    if s == "To Do" then Some(ToDo)
    else if s == "In Progress" then Some(InProgress)
    else if s == "Review" then Some(Review)
    else if s == "Completed" then Some(Completed)
    else None
  }

  /** A stored task. priority and status are closed enums; creatorId is
      required; description, dueDate (a timestamp) and assignedToId are optional. */
  datatype Task = Task(
    id: TaskId,
    title: string,
    description: Option<string>,
    dueDate: Option<int>,
    priority: Priority,
    status: Status,
    creatorId: UserId,
    assignedToId: Option<UserId>)

  /** A string made only of characters outside the Basic Multilingual Plane,
      such as emoji, has twice as many code units as characters. */
  lemma {:induction false} AstralLengthDoubles(s: string)
    requires forall i :: 0 <= i < |s| ==> (s[i] as int) >= FirstAstral
    ensures Utf16Length(s) == 2 * |s|
    decreases |s|
  {
    if s != [] {
      AstralLengthDoubles(s[1..]);
    }
  }

  /** The schema's checks on the title that the enum-typed fields do not already
      give: `required` (a missing or empty string fails it) and `maxlength`. */
  predicate ValidTitle(title: string) {
    0 < |title| && Utf16Length(title) <= MaxTitleLength
  }

  /** Every document that passes the schema's validators satisfies this. */
  predicate ValidTask(t: Task) {
    ValidTitle(t.title)
  }

  lemma {:induction false} ParsePriorityName(p: Priority)
    ensures ParsePriority(PriorityName(p)) == Some(p)
  {
  }

  lemma {:induction false} ParseStatusName(s: Status)
    ensures ParseStatus(StatusName(s)) == Some(s)
  {
  }
}

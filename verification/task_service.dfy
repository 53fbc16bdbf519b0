/** The task service (backend/src/services/taskService.ts): validate, then
    write the task collection, then notify. The Mongo collection is a map from
    task id to document, the socket.io hub an append-only log of emitted events. */
module TaskService {
  import opened Wrappers
  import opened TaskModel
  import opened TaskValidation

  datatype EventName = AssignmentNotification | TaskUpdate | TaskDeleted

  /** What is sent with a broadcast: the task document, or `{ id }` on delete. */
  datatype Payload = TaskDoc(task: Task) | DeletedId(id: TaskId)

  /** `io.to(subject).emit(name, task)` and `io.emit(name, payload)`. */
  datatype Event =
    | Room(subject: UserId, name: EventName, task: Task)
    | Broadcast(name: EventName, payload: Payload)

  /** What the service throws: zod's error with the failing fields, or the
      Mongoose validation error raised by `Task.create` with the failing paths. */
  datatype Failure =
    | ZodError(fields: set<Field>)
    | MongooseValidationError(paths: set<Field>)
    | TypeError(message: string)

  /** `if (validated.assignedToId) io.to(...).emit('assignmentNotification', task)`:
      JavaScript truthiness, so an absent or empty assignee notifies nobody. */
  function AssignmentEvents(assignee: Option<UserId>, task: Task): (es: seq<Event>)
    ensures |es| <= 1
    ensures es != [] <==> assignee.Some? && assignee.value != ""
    ensures forall e :: e in es ==> e == Room(assignee.value, AssignmentNotification, task)
  {
    if assignee.Some? && assignee.value != "" then [Room(assignee.value, AssignmentNotification, task)] else []
  }

  /** The events a create or a successful update emits, in order: the scoped
      assignment notification (if any), then the `taskUpdate` broadcast. */
  function ChangeEvents(assignee: Option<UserId>, task: Task): (es: seq<Event>)
    ensures |es| == if assignee.Some? && assignee.value != "" then 2 else 1
    ensures es[|es| - 1] == Broadcast(TaskUpdate, TaskDoc(task))
    ensures |es| == 2 ==> es[0] == Room(assignee.value, AssignmentNotification, task)
  {
    AssignmentEvents(assignee, task) + [Broadcast(TaskUpdate, TaskDoc(task))]
  }

  /** The document `Task.create` builds from a validated payload, with the
      creator given by the caller. */
  function NewTask(id: TaskId, v: CreateInput, creatorId: UserId): (t: Task)
    ensures t.id == id && t.creatorId == creatorId
    ensures t.title == v.title && t.priority == v.priority && t.status == v.status
    ensures t.description == v.description && t.dueDate == v.dueDate && t.assignedToId == v.assignedToId
  {
    Task(id, v.title, v.description, v.dueDate, v.priority, v.status, creatorId, v.assignedToId)
  }

  /** `findByIdAndUpdate(id, docUpdates)` on one document: a `$set` of the
      supplied fields. No Mongoose validator runs on this path. */
  function Merge(t: Task, u: UpdateInput): (r: Task)
    // identity and creator are never touched
    ensures r.id == t.id && r.creatorId == t.creatorId
    // an absent field keeps its stored value
    ensures u.title.None? ==> r.title == t.title
    ensures u.description.None? ==> r.description == t.description
    ensures u.dueDate.None? ==> r.dueDate == t.dueDate
    ensures u.priority.None? ==> r.priority == t.priority
    ensures u.status.None? ==> r.status == t.status
    ensures u.assignedToId.None? ==> r.assignedToId == t.assignedToId
    // a supplied field takes the supplied value
    ensures u.title.Some? ==> r.title == u.title.value
    ensures u.priority.Some? ==> r.priority == u.priority.value
    ensures u.status.Some? ==> r.status == u.status.value
    ensures u.description.Some? ==> r.description == u.description
    ensures u.dueDate.Some? ==> r.dueDate == u.dueDate
    ensures u.assignedToId.Some? ==> r.assignedToId == u.assignedToId
  {
    Task(t.id,
         u.title.GetOr(t.title),
         if u.description.Some? then u.description else t.description,
         if u.dueDate.Some? then u.dueDate else t.dueDate,
         u.priority.GetOr(t.priority),
         u.status.GetOr(t.status),
         t.creatorId,
         if u.assignedToId.Some? then u.assignedToId else t.assignedToId)
  }

  /** One condition of a Mongo query document, with Mongo's matching rules. */
  datatype Condition =
    | AssignedToIs(user: UserId)   // { assignedToId: user }
    | CreatorIs(user: UserId)      // { creatorId: user }
    | DueBefore(now: int)          // { dueDate: { $lt: now } }
    | StatusNot(status: Status)    // { status: { $ne: status } }

  /** Whether a document satisfies one condition. `$lt` never matches a
      document without the field; `$ne` matches any other value. */
  predicate Holds(t: Task, c: Condition) {
    match c
    case AssignedToIs(u) => t.assignedToId == Some(u)
    case CreatorIs(u) => t.creatorId == u
    case DueBefore(now) => t.dueDate.Some? && t.dueDate.value < now
    case StatusNot(s) => t.status != s
  }

  /** A query document is the conjunction of its conditions. */
  predicate Matches(t: Task, q: seq<Condition>) {
    forall i :: 0 <= i < |q| ==> Holds(t, q[i])
  }

  /** `Task.find(query)`: every stored document that matches. */
  function Find(tasks: map<TaskId, Task>, q: seq<Condition>): (r: set<Task>)
    ensures forall t :: t in r ==> t in tasks.Values && Matches(t, q)
    ensures forall id :: id in tasks && Matches(tasks[id], q) ==> tasks[id] in r
  {
    set id | id in tasks && Matches(tasks[id], q) :: tasks[id]
  }

  datatype UserTasks = UserTasks(assignedTasks: set<Task>, createdTasks: set<Task>, overdueTasks: set<Task>)

  /** The three queries of `getUserTasks`, with the clock reading `now`. */
  function QueryUserTasks(tasks: map<TaskId, Task>, user: UserId, now: int): UserTasks {
    UserTasks(
      Find(tasks, [AssignedToIs(user)]),
      Find(tasks, [CreatorIs(user)]),
      Find(tasks, [AssignedToIs(user), DueBefore(now), StatusNot(Completed)]))
  }

  /** The meaning of "overdue for a user". */
  predicate OverdueFor(t: Task, user: UserId, now: int) {
    t.assignedToId == Some(user) && t.dueDate.Some? && t.dueDate.value < now && t.status != Completed
  }

  /** Every document is stored under its own id, below the next fresh id, and
      its title is within the limit that both schemas enforce. */
  ghost predicate ValidStore(tasks: map<TaskId, Task>, nextId: nat) {
    forall id :: id in tasks ==> id < nextId && tasks[id].id == id && Utf16Length(tasks[id].title) <= MaxTitleLength
  }

  /** Storing a document with a title within the limit under its own id keeps the store valid. */
  lemma {:induction false} StorePut(tasks: map<TaskId, Task>, nextId: nat, t: Task)
    requires ValidStore(tasks, nextId)
    requires t.id <= nextId && Utf16Length(t.title) <= MaxTitleLength
    ensures ValidStore(tasks[t.id := t], if t.id == nextId then nextId + 1 else nextId)
  {
  }

  class TaskService {
    /** The date-time check and parser the schema uses. */
    const isoTime: DateParser
    /** The task collection. */
    var tasks: map<TaskId, Task>
    /** Every event emitted so far, oldest first. */
    var events: seq<Event>
    /** The id the next created document receives. */
    var nextId: nat

    ghost predicate Valid()
      reads this
    {
      ValidStore(tasks, nextId)
    }

    constructor (isoTime: DateParser)
      ensures Valid()
      ensures this.isoTime == isoTime && tasks == map[] && events == []
    {
      this.isoTime := isoTime;
      tasks := map[];
      events := [];
      nextId := 0;
    }

    /** `createTask(data, creatorId)`. */
    method CreateTask(data: Body, creatorId: UserId) returns (r: Result<Task, Failure>)
      requires Valid()
      modifies this
      ensures Valid()
      // rejected by zod: nothing written, nothing emitted
      ensures ValidateCreate(data, isoTime).Failure? ==>
                r == Failure(ZodError(ValidateCreate(data, isoTime).error))
      // accepted by zod but an empty title fails Mongoose's `required`
      ensures ValidateCreate(data, isoTime).Success? && ValidateCreate(data, isoTime).value.title == "" ==>
                r == Failure(MongooseValidationError({TitleField}))
      ensures r.Failure? ==> tasks == old(tasks) && events == old(events) && nextId == old(nextId)
      ensures r.Success? <==> ValidateCreate(data, isoTime).Success? && ValidateCreate(data, isoTime).value.title != ""
      // stored under a fresh id, creator from the argument, then notified
      ensures r.Success? ==>
                && r.value == NewTask(old(nextId), ValidateCreate(data, isoTime).value, creatorId)
                && ValidTask(r.value)
                && r.value.id !in old(tasks)
                && tasks == old(tasks)[r.value.id := r.value]
                && events == old(events) + ChangeEvents(r.value.assignedToId, r.value)
    {
      var validated := ValidateCreate(data, isoTime);
      if validated.Failure? {
        return Failure(ZodError(validated.error));
      }
      var v := validated.value;
      if v.title == "" {
        return Failure(MongooseValidationError({TitleField}));
      }
      var task := NewTask(nextId, v, creatorId);
      StorePut(tasks, nextId, task);
      tasks := tasks[nextId := task];
      nextId := nextId + 1;
      ghost var before := events;
      if v.assignedToId.Some? && v.assignedToId.value != "" {
        events := events + [Room(v.assignedToId.value, AssignmentNotification, task)];
      }
      assert events == before + AssignmentEvents(v.assignedToId, task);
      events := events + [Broadcast(TaskUpdate, TaskDoc(task))];
      r := Success(task);
    }

    /** `updateTask(taskId, updates)`: None is the `null` returned for an unknown id. */
    method UpdateTask(taskId: TaskId, updates: Body) returns (r: Result<Option<Task>, Failure>)
      requires Valid()
      modifies this
      ensures Valid()
      ensures nextId == old(nextId)
      ensures ValidateUpdate(updates, isoTime).Failure? ==>
                r == Failure(ZodError(ValidateUpdate(updates, isoTime).error))
      ensures ValidateUpdate(updates, isoTime).Success? && taskId !in old(tasks) ==> r == Success(None)
      ensures r.Failure? || r == Success(None) ==> tasks == old(tasks) && events == old(events)
      ensures ValidateUpdate(updates, isoTime).Success? && taskId in old(tasks) ==>
                && r == Success(Some(Merge(old(tasks)[taskId], ValidateUpdate(updates, isoTime).value)))
                && tasks == old(tasks)[taskId := r.value.value]
                && events == old(events) + ChangeEvents(ValidateUpdate(updates, isoTime).value.assignedToId, r.value.value)
    {
      var validated := ValidateUpdate(updates, isoTime);
      if validated.Failure? {
        return Failure(ZodError(validated.error));
      }
      var u := validated.value;
      if taskId !in tasks {
        return Success(None);
      }
      var task := Merge(tasks[taskId], u);
      StorePut(tasks, nextId, task);
      tasks := tasks[taskId := task];
      ghost var before := events;
      if u.assignedToId.Some? && u.assignedToId.value != "" {
        events := events + [Room(u.assignedToId.value, AssignmentNotification, task)];
      }
      assert events == before + AssignmentEvents(u.assignedToId, task);
      events := events + [Broadcast(TaskUpdate, TaskDoc(task))];
      r := Success(Some(task));
    }

    /** `deleteTask(taskId)`: removes the document if present and always
        broadcasts `taskDeleted`. */
    method DeleteTask(taskId: TaskId)
      requires Valid()
      modifies this
      ensures Valid()
      ensures nextId == old(nextId)
      ensures taskId !in tasks
      ensures tasks == old(tasks) - {taskId}
      ensures events == old(events) + [Broadcast(TaskDeleted, DeletedId(taskId))]
    {
      tasks := tasks - {taskId};
      events := events + [Broadcast(TaskDeleted, DeletedId(taskId))];
    }

    /** `getUserTasks(userId)`, with the clock passed in. */
    method GetUserTasks(userId: UserId, now: int) returns (r: UserTasks)
      ensures r == QueryUserTasks(tasks, userId, now)
      ensures forall t :: t in r.assignedTasks <==> t in tasks.Values && t.assignedToId == Some(userId)
      ensures forall t :: t in r.createdTasks <==> t in tasks.Values && t.creatorId == userId
      ensures forall t :: t in r.overdueTasks <==> t in tasks.Values && OverdueFor(t, userId, now)
      ensures r.overdueTasks <= r.assignedTasks
    {
      r := QueryUserTasks(tasks, userId, now);
      AssignedExactly(tasks, userId, now);
      CreatedExactly(tasks, userId, now);
      OverdueExactly(tasks, userId, now);
      OverdueWithinAssigned(tasks, userId, now);
    }
  }

  /** The assigned query returns exactly the stored tasks assigned to the user. */
  lemma {:induction false} AssignedExactly(tasks: map<TaskId, Task>, user: UserId, now: int)
    ensures forall t :: t in QueryUserTasks(tasks, user, now).assignedTasks <==>
                          t in tasks.Values && t.assignedToId == Some(user)
  {
    var q := [AssignedToIs(user)];
    forall t ensures t in Find(tasks, q) <==> t in tasks.Values && t.assignedToId == Some(user) {
      if t in Find(tasks, q) {
        assert Holds(t, q[0]);
      }
      if t in tasks.Values && t.assignedToId == Some(user) {
        var id :| id in tasks && tasks[id] == t;
        assert Matches(tasks[id], q);
      }
    }
  }

  /** The created query returns exactly the stored tasks the user created. */
  lemma {:induction false} CreatedExactly(tasks: map<TaskId, Task>, user: UserId, now: int)
    ensures forall t :: t in QueryUserTasks(tasks, user, now).createdTasks <==>
                          t in tasks.Values && t.creatorId == user
  {
    var q := [CreatorIs(user)];
    forall t ensures t in Find(tasks, q) <==> t in tasks.Values && t.creatorId == user {
      if t in Find(tasks, q) {
        assert Holds(t, q[0]);
      }
      if t in tasks.Values && t.creatorId == user {
        var id :| id in tasks && tasks[id] == t;
        assert Matches(tasks[id], q);
      }
    }
  }

  /** The overdue query returns exactly the stored tasks that are overdue for the user. */
  lemma {:induction false} OverdueExactly(tasks: map<TaskId, Task>, user: UserId, now: int)
    ensures forall t :: t in QueryUserTasks(tasks, user, now).overdueTasks <==> t in tasks.Values && OverdueFor(t, user, now)
  {
    var q := [AssignedToIs(user), DueBefore(now), StatusNot(Completed)];
    forall t ensures t in Find(tasks, q) <==> t in tasks.Values && OverdueFor(t, user, now) {
      if t in Find(tasks, q) {
        var id :| id in tasks && Matches(tasks[id], q) && tasks[id] == t;
        assert Holds(t, q[0]) && Holds(t, q[1]) && Holds(t, q[2]);
      }
      if t in tasks.Values && OverdueFor(t, user, now) {
        var id :| id in tasks && tasks[id] == t;
        assert Matches(t, q);
      }
    }
  }

  /** Over one store, the overdue list is part of the assigned list. */
  lemma {:induction false} OverdueWithinAssigned(tasks: map<TaskId, Task>, user: UserId, now: int)
    ensures QueryUserTasks(tasks, user, now).overdueTasks <= QueryUserTasks(tasks, user, now).assignedTasks
  {
    var r := QueryUserTasks(tasks, user, now);
    forall t | t in r.overdueTasks ensures t in r.assignedTasks {
      var id :| id in tasks && Matches(tasks[id], [AssignedToIs(user), DueBefore(now), StatusNot(Completed)]) && tasks[id] == t;
      assert Holds(tasks[id], [AssignedToIs(user), DueBefore(now), StatusNot(Completed)][0]);
      assert Matches(t, [AssignedToIs(user)]);
    }
  }

  /** A completed task, or one without a due date, is never overdue. */
  lemma {:induction false} NeverOverdue(tasks: map<TaskId, Task>, user: UserId, now: int, t: Task)
    requires t.status == Completed || t.dueDate.None?
    ensures t !in QueryUserTasks(tasks, user, now).overdueTasks
  {
    OverdueExactly(tasks, user, now);
  }

  /** With the store unchanged, a task that is overdue stays overdue as time passes. */
  lemma {:induction false} OverdueGrowsWithTime(tasks: map<TaskId, Task>, user: UserId, now: int, later: int)
    requires now <= later
    ensures QueryUserTasks(tasks, user, now).overdueTasks <= QueryUserTasks(tasks, user, later).overdueTasks
  {
    OverdueExactly(tasks, user, now);
    OverdueExactly(tasks, user, later);
  }

  /** Deleting twice leaves the same collection as deleting once; the second
      delete still broadcasts. */
  method DeleteIdempotent(svc: TaskService, id: TaskId)
    requires svc.Valid()
    modifies svc
    ensures svc.Valid()
    ensures svc.tasks == old(svc.tasks) - {id}
    ensures svc.events == old(svc.events) + [Broadcast(TaskDeleted, DeletedId(id)), Broadcast(TaskDeleted, DeletedId(id))]
  {
    svc.DeleteTask(id);
    svc.DeleteTask(id);
  }

  /** Any status may be set from any status: the schema orders no transitions. */
  lemma {:induction false} AnyStatusTransition(t: Task, s: Status, isoTime: DateParser)
    ensures ValidateUpdate(map[Key(StatusField) := JString(StatusName(s))], isoTime).Success?
    ensures var u := ValidateUpdate(map[Key(StatusField) := JString(StatusName(s))], isoTime).value;
            Merge(t, u) == t.(status := s)
  {
  }

  /** An update is checked by zod only, so it can store an empty title, which
      the schema's `required` rejects at creation. */
  lemma {:induction false} UpdateCanEmptyTitle(t: Task, isoTime: DateParser)
    ensures ValidateUpdate(map[Key(TitleField) := JString("")], isoTime).Success?
    ensures var u := ValidateUpdate(map[Key(TitleField) := JString("")], isoTime).value;
            !ValidTask(Merge(t, u))
  {
  }
}

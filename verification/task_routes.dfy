/** The task router (backend/src/routes/taskRoutes.ts): a middleware that
    injects a dummy user when none is set, then `authenticate`, then four
    handlers that turn a service outcome into an HTTP status and body. */
module TaskRoutes {
  import opened Wrappers
  import opened TaskModel
  import opened TaskValidation
  import opened TaskService
  import opened Auth

  const DummyUserId := "user123"
  const NotFoundMessage := "Task not found"
  /** What `(req as any).user.userId` throws when `req.user` is undefined. */
  const MissingUserMessage := "Cannot read properties of undefined (reading 'userId')"

  const Ok := 200
  const Created := 201
  const NoContent := 204
  const BadRequest := 400
  const NotFound := 404

  datatype ResponseBody =
    | TaskJson(task: Task)
    | DashboardJson(tasks: UserTasks)
    | ErrorJson(error: Failure)      // `{ message: err.message }`
    | MessageJson(message: string)
    | Empty

  datatype Response = Response(status: int, body: ResponseBody)

  /** The first `router.use`: set `req.user` to the dummy user when it is absent. */
  method InjectDummyUser(req: Request) returns (step: Step)
    modifies req
    ensures step == Next
    ensures old(req.user).None? ==> req.user == Some(User(DummyUserId))
    ensures old(req.user).Some? ==> req.user == old(req.user)
  {
    if req.user.None? {
      req.user := Some(User(DummyUserId));
    }
    step := Next;
  }

  /** The two `router.use` middlewares in order. The dummy user never admits a
      request: `authenticate` still needs a verified token and overwrites
      `req.user` with the verified user. */
  method Admit(req: Request, verify: TokenVerifier) returns (step: Step)
    modifies req
    ensures step.Next? <==> Decide(req.authorization, verify).Verified?
    ensures step.Next? ==> req.user == Some(User(Decide(req.authorization, verify).userId))
    ensures step.Respond? ==> step == Respond(Unauthorized, Decide(req.authorization, verify).message)
  {
    step := InjectDummyUser(req);
    step := Authenticate(req, verify);
  }

  /** POST `/`: 201 with the task, or 400 with whatever was thrown. */
  function CreatedResponse(outcome: Result<Task, Failure>): (resp: Response)
    ensures resp.status == Created <==> outcome.Success?
    ensures outcome.Success? ==> resp.body == TaskJson(outcome.value)
    ensures outcome.Failure? ==> resp == Response(BadRequest, ErrorJson(outcome.error))
  {
    match outcome
    case Success(task) => Response(Created, TaskJson(task))
    case Failure(err) => Response(BadRequest, ErrorJson(err))
  }

  /** GET `/me`: 200 with the three lists, or 400. */
  function DashboardResponse(outcome: Result<UserTasks, Failure>): (resp: Response)
    ensures resp.status == Ok <==> outcome.Success?
    ensures outcome.Success? ==> resp.body == DashboardJson(outcome.value)
    ensures outcome.Failure? ==> resp == Response(BadRequest, ErrorJson(outcome.error))
  {
    match outcome
    case Success(data) => Response(Ok, DashboardJson(data))
    case Failure(err) => Response(BadRequest, ErrorJson(err))
  }

  /** PUT `/:id`: a null result is 404, a task is 200, a thrown error is 400. */
  function UpdatedResponse(outcome: Result<Option<Task>, Failure>): (resp: Response)
    ensures resp.status == NotFound <==> outcome == Success(None)
    ensures resp.status == NotFound ==> resp.body == MessageJson(NotFoundMessage)
    ensures resp.status == Ok <==> outcome.Success? && outcome.value.Some?
    ensures resp.status == Ok ==> resp.body == TaskJson(outcome.value.value)
    ensures outcome.Failure? ==> resp == Response(BadRequest, ErrorJson(outcome.error))
  {
    match outcome
    case Success(None) => Response(NotFound, MessageJson(NotFoundMessage))
    case Success(Some(task)) => Response(Ok, TaskJson(task))
    case Failure(err) => Response(BadRequest, ErrorJson(err))
  }

  /** DELETE `/:id`: 204 whenever the service does not throw. */
  function DeletedResponse(outcome: Result<(), Failure>): (resp: Response)
    ensures resp.status == NoContent <==> outcome.Success?
    ensures outcome.Success? ==> resp.body == Empty
    ensures outcome.Failure? ==> resp == Response(BadRequest, ErrorJson(outcome.error))
  {
    match outcome
    case Success(_) => Response(NoContent, Empty)
    case Failure(err) => Response(BadRequest, ErrorJson(err))
  }

  /** The POST handler: the creator is the user on the request, never a field of the body. */
  method HandlePost(svc: TaskService, req: Request, body: Body) returns (resp: Response)
    requires svc.Valid()
    modifies svc
    ensures svc.Valid()
    // `(req as any).user.userId` throws before the service is called
    ensures req.user.None? ==> resp == Response(BadRequest, ErrorJson(TypeError(MissingUserMessage)))
    ensures req.user.Some? && ValidateCreate(body, svc.isoTime).Failure? ==>
              resp == Response(BadRequest, ErrorJson(ZodError(ValidateCreate(body, svc.isoTime).error)))
    ensures req.user.Some? && ValidateCreate(body, svc.isoTime).Success? && ValidateCreate(body, svc.isoTime).value.title == "" ==>
              resp == Response(BadRequest, ErrorJson(MongooseValidationError({TitleField})))
    ensures resp.status != Created ==>
              resp.status == BadRequest && svc.tasks == old(svc.tasks) && svc.events == old(svc.events)
    // 201: the task built from the payload, under a fresh id, with its events
    ensures req.user.Some? && ValidateCreate(body, svc.isoTime).Success? && ValidateCreate(body, svc.isoTime).value.title != "" ==>
              var task := NewTask(old(svc.nextId), ValidateCreate(body, svc.isoTime).value, req.user.value.userId);
              && resp == Response(Created, TaskJson(task))
              && svc.tasks == old(svc.tasks)[task.id := task]
              && svc.events == old(svc.events) + ChangeEvents(task.assignedToId, task)
  {
    if req.user.None? {
      return Response(BadRequest, ErrorJson(TypeError(MissingUserMessage)));
    }
    var userId := req.user.value.userId;
    var outcome := svc.CreateTask(body, userId);
    resp := CreatedResponse(outcome);
  }

  /** The GET `/me` handler. */
  method HandleGetMe(svc: TaskService, req: Request, now: int) returns (resp: Response)
    ensures req.user.None? ==> resp == Response(BadRequest, ErrorJson(TypeError(MissingUserMessage)))
    ensures req.user.Some? ==> resp == Response(Ok, DashboardJson(QueryUserTasks(svc.tasks, req.user.value.userId, now)))
    ensures req.user.Some? ==>
              && (forall t :: t in resp.body.tasks.assignedTasks <==>
                                t in svc.tasks.Values && t.assignedToId == Some(req.user.value.userId))
              && (forall t :: t in resp.body.tasks.createdTasks <==>
                                t in svc.tasks.Values && t.creatorId == req.user.value.userId)
              && (forall t :: t in resp.body.tasks.overdueTasks <==>
                                t in svc.tasks.Values && OverdueFor(t, req.user.value.userId, now))
  {
    if req.user.None? {
      return Response(BadRequest, ErrorJson(TypeError(MissingUserMessage)));
    }
    var data := svc.GetUserTasks(req.user.value.userId, now);
    resp := DashboardResponse(Success(data));
  }

  /** The PUT `/:id` handler. */
  method HandlePut(svc: TaskService, taskId: TaskId, body: Body) returns (resp: Response)
    requires svc.Valid()
    modifies svc
    ensures svc.Valid()
    ensures ValidateUpdate(body, svc.isoTime).Failure? ==>
              resp == Response(BadRequest, ErrorJson(ZodError(ValidateUpdate(body, svc.isoTime).error)))
    ensures ValidateUpdate(body, svc.isoTime).Success? && taskId !in old(svc.tasks) ==>
              resp == Response(NotFound, MessageJson(NotFoundMessage))
    ensures resp.status != Ok ==> svc.tasks == old(svc.tasks) && svc.events == old(svc.events)
    // 200: the merged document, stored and announced
    ensures ValidateUpdate(body, svc.isoTime).Success? && taskId in old(svc.tasks) ==>
              var task := Merge(old(svc.tasks)[taskId], ValidateUpdate(body, svc.isoTime).value);
              && resp == Response(Ok, TaskJson(task))
              && svc.tasks == old(svc.tasks)[taskId := task]
              && svc.events == old(svc.events) + ChangeEvents(ValidateUpdate(body, svc.isoTime).value.assignedToId, task)
  {
    var outcome := svc.UpdateTask(taskId, body);
    resp := UpdatedResponse(outcome);
  }

  /** The DELETE `/:id` handler: 204 whether or not the id existed. */
  method HandleDelete(svc: TaskService, taskId: TaskId) returns (resp: Response)
    requires svc.Valid()
    modifies svc
    ensures svc.Valid()
    ensures resp == Response(NoContent, Empty)
    ensures svc.tasks == old(svc.tasks) - {taskId}
    ensures svc.events == old(svc.events) + [Broadcast(TaskDeleted, DeletedId(taskId))]
  {
    svc.DeleteTask(taskId);
    resp := DeletedResponse(Success(()));
  }

  /** A POST request through the whole router: the task is created only for a
      verified token, and its creator is the verified user. */
  method ServePost(svc: TaskService, req: Request, verify: TokenVerifier, body: Body) returns (resp: Response)
    requires svc.Valid()
    modifies svc, req
    ensures svc.Valid()
    ensures Decide(req.authorization, verify).Rejected? ==>
              && resp == Response(Unauthorized, MessageJson(Decide(req.authorization, verify).message))
              && svc.tasks == old(svc.tasks) && svc.events == old(svc.events)
    ensures resp.status != Created ==> svc.tasks == old(svc.tasks) && svc.events == old(svc.events)
    ensures Decide(req.authorization, verify).Verified? && ValidateCreate(body, svc.isoTime).Failure? ==>
              resp == Response(BadRequest, ErrorJson(ZodError(ValidateCreate(body, svc.isoTime).error)))
    ensures Decide(req.authorization, verify).Verified? && ValidateCreate(body, svc.isoTime).Success?
              && ValidateCreate(body, svc.isoTime).value.title == "" ==>
              resp == Response(BadRequest, ErrorJson(MongooseValidationError({TitleField})))
    // 201: created by the verified user, under a fresh id, with its events
    ensures Decide(req.authorization, verify).Verified? && ValidateCreate(body, svc.isoTime).Success?
              && ValidateCreate(body, svc.isoTime).value.title != "" ==>
              var task := NewTask(old(svc.nextId), ValidateCreate(body, svc.isoTime).value, Decide(req.authorization, verify).userId);
              && resp == Response(Created, TaskJson(task))
              && svc.tasks == old(svc.tasks)[task.id := task]
              && svc.events == old(svc.events) + ChangeEvents(task.assignedToId, task)
  {
    var step := Admit(req, verify);
    if step.Respond? {
      return Response(step.status, MessageJson(step.message));
    }
    resp := HandlePost(svc, req, body);
  }
}

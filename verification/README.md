# Collaborative task manager: task lifecycle model

A Dafny model of the task lifecycle of a collaborative task-management web
application (an Express/Mongoose back end with socket.io notifications and a
React dashboard). Every task mutation is validated, then written to the task
collection, then announced. A create or update goes to the assignee's room and
is broadcast as `taskUpdate`. A delete is broadcast as `taskDeleted`.

The model has seven modules:

- `TaskModel`: the stored task and its Mongoose schema. It has the closed
  `Priority` and `Status` enums, their defaults, the title limit of 100 UTF-16 code units
  and the `required` title.
- `TaskValidation`: the zod schemas `CreateTaskDto` and `UpdateTaskDto`
  (its `.partial()`) as pure functions. Each takes a JSON request body and
  returns a normalised payload or the set of failing fields.
- `TaskService`: the service as a class. It holds the task collection
  (`map<TaskId, Task>`) and the log of emitted socket.io events
  (`seq<Event>`). An event is `Room(subject, name, task)` or
  `Broadcast(name, payload)`. `CreateTask`, `UpdateTask` and `DeleteTask`
  change both fields. `GetUserTasks` only reads, and evaluates Mongo query
  documents with Mongo's matching rules.
- `Auth`: the `authenticate` middleware. It covers JavaScript's
  `split(' ')`, extraction of the token from the second segment, a token
  verifier passed in as a function, and the write of `req.user` before `next()`.
- `TaskRoutes`: the task router. The dummy-user middleware runs first, then
  `authenticate`, then the four handlers. Each handler maps a service outcome
  (a value, `null`, or a thrown error) to an HTTP status and body.
- `Dashboard`: the client's `applyFilters`. It filters by status and
  priority, then sorts a copy in place by due date.
- `Wrappers`: `Option` and `Result`.

Inputs the source gets from its environment are passed in as parameters:

- the zod `.datetime()` check combined with `new Date(s).getTime()` is a `DateParser`;
- `jwt.verify` is a `TokenVerifier`;
- the clock of `getUserTasks` is `now`.

Mongo's generated document ids are modelled by a counter (`nextId`), so task ids are natural numbers.

Behaviour of the code worth knowing:

- The zod title rule (`taskService.ts:6`) accepts an empty string. Only the
  Mongoose `required` validator (`Task.ts:18`) rejects it, inside
  `Task.create`, still before any write or event.
- `findByIdAndUpdate` (`taskService.ts:53`) runs no Mongoose validators, so an
  update can store an empty title (`UpdateCanEmptyTitle`). The title limit of
  100 still holds for every stored task, because zod checks it on both paths.
- The title limit counts JavaScript string length, that is UTF-16 code units.
  A character outside the Basic Multilingual Plane, such as an emoji, counts
  twice (`AstralTitleTooLong`).
- `updateTask` (`taskService.ts:57-59`) sends the assignment notification
  whenever the update carries a truthy `assignedToId`, even if the assignee
  did not change.
- The dummy-user middleware (`taskRoutes.ts:14-19`) admits nothing: the
  `authenticate` middleware runs after it (`taskRoutes.ts:21`) and either
  answers 401 or overwrites `req.user`.

## Model

| member | source | states |
|---|---|---|
| TaskModel.ParsePriority | backend/src/models/Task.ts:21-25 | the priority enum accepts exactly the four names, and the parsed value carries the given name |
| TaskModel.ParseStatus | backend/src/models/Task.ts:26-30 | the status enum accepts exactly the four names, and the parsed value carries the given name |
| TaskModel.ParsePriorityName | backend/src/models/Task.ts:3 | parsing a priority's stored name gives that priority back |
| TaskModel.ParseStatusName | backend/src/models/Task.ts:4 | parsing a status's stored name gives that status back |
| TaskModel.Utf16Length | backend/src/models/Task.ts:18 | the length `maxlength` measures lies between the number of characters and twice it, and equals the number of characters exactly when none lies outside the Basic Multilingual Plane |
| TaskModel.AstralLengthDoubles | backend/src/models/Task.ts:18 | a string of characters outside the Basic Multilingual Plane has twice as many code units as characters |
| TaskValidation.ValidateCreate | backend/src/services/taskService.ts:5-14 | fails exactly when some field is invalid, listing every invalid field; a missing or non-string title, or one longer than 100 UTF-16 code units, always fails; on success the title is the body's string, an absent priority is Medium, an absent status is To Do, present enums carry the body's names, and the optional fields are present exactly when the body has them |
| TaskValidation.ValidateUpdate | backend/src/services/taskService.ts:18 | the same rules with every field optional: a title longer than 100 UTF-16 code units or not a string still fails; an absent field stays absent, with no default |
| TaskValidation.PartialDropsOnlyRequiredTitle | backend/src/services/taskService.ts:5-18 | the partial schema reports exactly the create schema's issues minus the missing-title one, so every valid create body is a valid update body |
| TaskValidation.AstralTitleTooLong | backend/src/services/taskService.ts:6 | a title of 51 characters outside the Basic Multilingual Plane fails both schemas, because its length is 102 |
| TaskValidation.UnknownKeysIgnored | backend/src/services/taskService.ts:5-14 | a key the schema does not name, such as a client `creatorId`, changes neither the verdict nor the payload |
| TaskService.AssignmentEvents | backend/src/services/taskService.ts:34-36 | at most one event; it is a room event to the assignee exactly when the assignee is present and non-empty |
| TaskService.ChangeEvents | backend/src/services/taskService.ts:34-37 | the `taskUpdate` broadcast comes last; with a non-empty assignee it is preceded by exactly one `assignmentNotification` to that assignee's room, and otherwise it is the only event |
| TaskService.NewTask | backend/src/services/taskService.ts:28-32 | the created document takes every field from the validated payload, and its creator is the argument |
| TaskService.Merge | backend/src/services/taskService.ts:48-55 | id and creator never change; a supplied field takes the supplied value; an absent field keeps its stored value |
| TaskService.Find | backend/src/services/taskService.ts:73-80 | a query returns exactly the stored documents that satisfy every condition of the query document |
| TaskService.TaskService.CreateTask | backend/src/services/taskService.ts:22-40 | a zod or Mongoose rejection changes neither the store nor the event log; success is exactly a valid body with a non-empty title; the new task sits under a fresh id with the caller's creatorId and defaults applied, and the emitted events are the optional assignment notification followed by the broadcast; store invariant kept |
| TaskService.TaskService.UpdateTask | backend/src/services/taskService.ts:42-65 | a rejected body or unknown id leaves the store and log unchanged (unknown id gives null); a known id stores the merge of the supplied fields and emits `taskUpdate`, preceded by `assignmentNotification` only when the update names a non-empty assignee; store invariant kept |
| TaskService.TaskService.DeleteTask | backend/src/services/taskService.ts:67-70 | the id is absent afterwards, everything else is kept, and `taskDeleted {id}` is broadcast whether or not the id existed |
| TaskService.TaskService.GetUserTasks | backend/src/services/taskService.ts:72-83 | returns the three query results: the assigned list is exactly the stored tasks assigned to the user, the created list exactly those the user created, the overdue list exactly those overdue for the user, and the overdue list is part of the assigned list |
| TaskService.AssignedExactly | backend/src/services/taskService.ts:73 | the assigned query returns exactly the stored tasks whose assignee is the user |
| TaskService.CreatedExactly | backend/src/services/taskService.ts:74 | the created query returns exactly the stored tasks whose creator is the user |
| TaskService.OverdueExactly | backend/src/services/taskService.ts:76-80 | the Mongo overdue query returns exactly the stored tasks assigned to the user with a due date strictly before now and a status other than Completed |
| TaskService.OverdueWithinAssigned | backend/src/services/taskService.ts:73-80 | over one store the overdue list is a subset of the assigned list |
| TaskService.NeverOverdue | backend/src/services/taskService.ts:76-80 | a Completed task, or one without a due date, is never overdue |
| TaskService.OverdueGrowsWithTime | backend/src/services/taskService.ts:76-80 | over an unchanged store, a later clock only adds overdue tasks |
| TaskService.DeleteIdempotent | backend/src/services/taskService.ts:67-70 | calling `deleteTask` twice on one id leaves the collection as one call does; each call broadcasts `taskDeleted` |
| TaskService.AnyStatusTransition | backend/src/models/Task.ts:26-30 | an update naming any status is accepted, and on any task it changes the status and nothing else, so no transition order is imposed |
| TaskService.UpdateCanEmptyTitle | backend/src/services/taskService.ts:46-55 | an update with an empty title passes validation and yields a document that violates the schema's required title |
| Auth.Split | backend/src/middleware/auth.ts:14 | `split(' ')` gives at least one segment and no segment contains a space |
| Auth.JoinSplit | backend/src/middleware/auth.ts:14 | joining the segments of `split(' ')` with single spaces gives the header back, so nothing is lost or added |
| Auth.SplitJoin | backend/src/middleware/auth.ts:14 | splitting a space-join of space-free segments gives those segments back, so the segmentation is unique |
| Auth.BearerToken | backend/src/middleware/auth.ts:14-17 | an extracted token is non-empty and space-free |
| Auth.TokenIsSecondWord | backend/src/middleware/auth.ts:14-17 | an extracted token is the header's second word: a space-free first word, one space, the token, then nothing or a rest starting with a space |
| Auth.AnySchemeAccepted | backend/src/middleware/auth.ts:14-17 | any first word, one space, a space-free token, then nothing or anything starting with a space, yields that token; neither the scheme nor what follows the token is checked |
| Auth.NoSecondSegment | backend/src/middleware/auth.ts:14-17 | a header with no space in it (such as `"Bearer"`) has no second segment and gives no token |
| Auth.EmptySecondSegment | backend/src/middleware/auth.ts:14-17 | a first word followed by a space and then nothing or another space (such as `"Bearer "` or `"Bearer  x"`) gives an empty second segment and so no token |
| Auth.Decide | backend/src/middleware/auth.ts:9-27 | no header, an empty header or no token gives "No token provided"; a token the verifier rejects gives "Invalid token"; otherwise the request is admitted as the verified user |
| Auth.Authenticate | backend/src/middleware/auth.ts:4-28 | exactly one of a 401 answer with the decided message (leaving `req.user` unchanged) or `next`, with `req.user` set to the verified user |
| TaskRoutes.InjectDummyUser | backend/src/routes/taskRoutes.ts:14-19 | sets `user123` only when `req.user` is absent, and always calls `next` |
| TaskRoutes.Admit | backend/src/routes/taskRoutes.ts:14-21 | a request passes the two middlewares exactly when its token verifies, and then carries the verified user, never the dummy |
| TaskRoutes.CreatedResponse | backend/src/routes/taskRoutes.ts:23-31 | 201 with the task exactly on success, otherwise 400 with the error |
| TaskRoutes.DashboardResponse | backend/src/routes/taskRoutes.ts:33-41 | 200 with the three lists exactly on success, otherwise 400 with the error |
| TaskRoutes.UpdatedResponse | backend/src/routes/taskRoutes.ts:43-51 | 404 "Task not found" exactly for a null result, 200 with the task exactly for a task, 400 for a thrown error |
| TaskRoutes.DeletedResponse | backend/src/routes/taskRoutes.ts:53-60 | 204 with no body exactly when the service does not throw, otherwise 400 |
| TaskRoutes.HandlePost | backend/src/routes/taskRoutes.ts:23-31 | with no `req.user`, 400 with the TypeError; a zod or Mongoose rejection gives 400 with that error; otherwise 201 with the task built from the payload under a fresh id, its creator taken from `req.user` and never from the body, that task added to the store, and the assignment notification (if any) and `taskUpdate` appended to the log; every non-201 answer leaves store and log unchanged |
| TaskRoutes.HandleGetMe | backend/src/routes/taskRoutes.ts:33-41 | with no `req.user`, 400 with the TypeError; otherwise 200 with the three query results for that user: exactly the stored tasks assigned to them, created by them, and overdue for them |
| TaskRoutes.HandlePut | backend/src/routes/taskRoutes.ts:43-51 | 400 with the zod error for an invalid body; 404 "Task not found" for an unknown id; otherwise 200 with the merged document, which replaces the stored one, and the assignment notification (if any) and `taskUpdate` appended to the log; a non-200 answer changes neither store nor log |
| TaskRoutes.HandleDelete | backend/src/routes/taskRoutes.ts:53-60 | always 204, whether or not the id existed; the id is removed and `taskDeleted` broadcast |
| TaskRoutes.ServePost | backend/src/routes/taskRoutes.ts:14-31 | through the whole router, an unverified request gets 401 and changes nothing; for a verified one, a rejected body gives 400 and changes nothing, and a valid one gives 201 with the task built from the payload, created by the verified user under a fresh id, stored, and announced |
| Dashboard.Select | frontend/src/components/Dashboard.tsx:119 | `filter` keeps exactly the elements that satisfy the predicate, each as often as in the input |
| Dashboard.SelectAppend | frontend/src/components/Dashboard.tsx:119 | `filter` distributes over concatenation, so kept elements stay in their input order |
| Dashboard.SelectTies | frontend/src/components/Dashboard.tsx:119-129 | filtering commutes with taking the tasks due at one time |
| Dashboard.Filtered | frontend/src/components/Dashboard.tsx:118-123 | every kept task matches the active filters, and each task occurs as often as in the input if it passes, otherwise never |
| Dashboard.FilteredTies | frontend/src/components/Dashboard.tsx:118-123 | the filtered tasks due at any one time are the input tasks due then that pass both filters, in input order |
| Dashboard.SwapKeepsTies | frontend/src/components/Dashboard.tsx:125-129 | exchanging two neighbours with different due times leaves, for every due time, the sequence of tasks with that due time unchanged |
| Dashboard.InsertAt | frontend/src/components/Dashboard.tsx:125-129 | one insertion step extends the sorted prefix by one element, leaves every element after it in place, permutes the array and keeps the relative order of tasks with equal due times |
| Dashboard.SortByDueDate | frontend/src/components/Dashboard.tsx:125-129 | the array ends sorted by the comparator's key, is a permutation of its old contents, and is stable: for every due time, the tasks with that due time appear in their old order |
| Dashboard.ApplyFilters | frontend/src/components/Dashboard.tsx:115-132 | the input array is only read (no modifies clause); every result element passes the filters; the result is a permutation of the passing input tasks; due times, with a missing date counted as 0, are non-decreasing for `asc` and non-increasing for `desc`; for every due time, the result's tasks with that due time are the input tasks with that due time that pass the filters, in input order |
| Dashboard.NoFilterKeepsAll | frontend/src/components/Dashboard.tsx:115-131 | with both filters at All the filtering step gives back the input sequence unchanged, so the sort sees every task |

## Left out

- Socket delivery: `server.ts` wiring, the `join` handler and delivery to live sockets are left out. Rooms appear only as the subject of a `Room` event. Delivery is concurrent I/O.
- Registration and login: `authService.ts` and `authRoutes.ts` are left out. They are bcrypt, JWT signing and user lookup in libraries that are not part of this model.
- Token checking: the internals of `jwt.verify` (signature and expiry) are left out. The verifier is a function parameter.
- Dates: zod's ISO-8601 `.datetime()` check and `new Date(...)` parsing are left out. Together they are the `DateParser` parameter, and timestamps are integers.
- Ids: Mongoose ObjectId casting is left out. Ids are opaque: task ids are numbers from a counter, user ids are strings. So a malformed id string, which would throw a CastError, is not modelled. This includes an empty `assignedToId`: the model stores it and notifies nobody, while Mongoose would fail to cast it, so `createTask` and `updateTask` would throw and the route would answer 400.
- Timestamps: Mongoose's `timestamps` option (`createdAt`/`updatedAt`) is left out.
- Concurrency: interleaving of concurrent requests (last write wins) is left out. Every operation runs alone.
- Error messages: the text of a zod or Mongoose error message is left out. The response body carries the error value itself.
- TaskValidation.ValidateUpdate: an absent field stays absent, which is what `.partial()` does in zod 3. The zod version is not part of this model. Under zod 4, `.partial()` still applies each field's `.default()`, so an update would also reset priority to Medium and status to To Do.
- TaskModel.Utf16Length: a Dafny string holds Unicode scalar values, so a JavaScript string with an unpaired surrogate cannot be represented.
- TaskService.TaskService.GetUserTasks: returns the three query results as sets of documents, not as arrays in Mongo's natural order.
- Dashboard.ApplyFilters: assumes every due date is a valid timestamp. The `NaN` comparator results that unparsable date strings would cause are not modelled.
- The rest of `Dashboard.tsx`, `useSocket.ts`, `AuthPage.tsx` and `App.tsx` are left out. They are React rendering, queries, mutations and timers.
- Configuration files are left out: `vite.config.ts` and `env-check.ts`.
- The compiled copies under `backend/dist` are left out. Their logic is the same as the `src` files modelled here.

# Task methods of a to-do list server

A model of the server methods of a small to-do application: `insertTask`,
`removeTask` and `toggleTaskDone`, with the shared guard `checkTaskOwner`,
over a collection of task documents. Every method checks that somebody is
logged in. Removal and toggling also check that the task belongs to the
caller. A missing task and somebody else's task give the same "Access denied."
error.

- `tasks.dfy`, module `Tasks`: the task record, the two errors, the `findOne`
  lookup, `checkTaskOwner`, and each method's effect as a function from the
  store before the call to the reply and the store after it.
- `task_methods.dfy`, module `TaskMethods`: class `TaskService`. It holds the
  collection as a `map` field and its methods update it in place. Each method
  states its new collection outright and ties it to the function in `Tasks`.
  `BuyMilk` is a client that walks one task through its whole life using only
  the methods' contracts.
- `requests.dfy`, module `Requests`: the three registered methods as requests
  carrying the caller's session. Runs of requests are applied one after
  another, and the lemmas say what no sequence of calls can do.

The session is an explicit `Option<UserId>` caller (`None` means not logged
in). The id of a new document and the `new Date()` reading are parameters:
`id` must not already be in the store, and `now` is an opaque timestamp. The
`done` flag is absent on a new task. It is read with JavaScript truthiness
(`Done`: absent counts as false), and a toggle writes `Some(!Done(task))`.

## Model

| member | source | states |
|---|---|---|
| Tasks.FindOne | api/tasks/tasks.methods.js:29-32 | finds a task exactly when the id is in the store and, if an owner is given, that owner matches; a found task is the stored one |
| Tasks.CheckTaskOwner | api/tasks/tasks.methods.js:26-36 | succeeds iff the caller is logged in and owns a task with that id; without a session the error is always NotLoggedIn (login is checked first); otherwise a missing or foreign task both give AccessDenied |
| Tasks.Insert | api/tasks/tasks.methods.js:11-19 | without a session: NotLoggedIn and the store unchanged; with caller U: exactly the one new key, holding the given description, owner U, the given createdAt and `done` false, and every existing task unchanged |
| Tasks.Remove | api/tasks/tasks.methods.js:43-46 | outcome is the ownership check's; a rejected call leaves the store unchanged; an accepted one removes exactly `taskId` and leaves every other entry as it was |
| Tasks.ToggleDone | api/tasks/tasks.methods.js:53-60 | outcome is the ownership check's; rejected means unchanged; the keys never change; the owner's call sets `done` to the negation of its old truth value and keeps description, owner and createdAt; all other tasks unchanged |
| Tasks.ToggleTwice | api/tasks/tasks.methods.js:58 | two toggles by the owner both succeed and restore the original truth value of `done`; the store is the original one with an absent flag made an explicit false |
| Tasks.ToggleByOtherRejected | api/tasks/tasks.methods.js:33-35 | a logged-in caller who does not own the task (or asks for a missing one) gets AccessDenied from both toggle and remove, and the store is unchanged |
| TaskMethods.TaskService.InsertTask | api/tasks/tasks.methods.js:11-19 | the collection becomes the old one plus the caller's new task under `id`, or is unchanged with NotLoggedIn when nobody is logged in; agrees with Tasks.Insert |
| TaskMethods.TaskService.RemoveTask | api/tasks/tasks.methods.js:43-46 | outcome is the ownership check on the old collection; on success the collection loses exactly `taskId`, on failure it is unchanged; agrees with Tasks.Remove |
| TaskMethods.TaskService.ToggleTaskDone | api/tasks/tasks.methods.js:53-60 | outcome is the ownership check on the old collection; on success only that task's `done` is replaced by the negation of its old truth value, on failure nothing changes; agrees with Tasks.ToggleDone |
| Requests.Step | api/tasks/tasks.methods.js:65-69 | dispatching any of the three registered methods: no session means NotLoggedIn; an error changes nothing; description, owner and createdAt of a surviving task never change; a task whose owner is not the caller stays exactly as it was; only an insert's id can appear |
| Requests.Run | api/tasks/tasks.methods.js:65-69 | after a sequence of calls every task present was there before or was inserted by one of the calls |
| Requests.RunKeepsRecord | api/tasks/tasks.methods.js:14-18 | over any sequence of calls, a task still present (whose id was not handed out again) keeps the owner, description and createdAt set at insert |
| Requests.RunWithoutOwner | api/tasks/tasks.methods.js:26-36 | a sequence of calls none of which comes from a task's owner leaves that task present and exactly as it was |
| Requests.AnonymousRunChangesNothing | api/tasks/tasks.methods.js:11-13 | a sequence of calls made without a session leaves the store unchanged |

## Left out

- `async`/`await`: each method runs atomically. The window between `checkTaskOwner` and the later lookup, update or removal is not modelled. So concurrent toggles racing on one task, and a task vanishing in between, are not covered. In that window the source would dereference a missing task and throw a `TypeError`.
- The runtime `check(x, String)` calls: the parameters are typed `string`.
- The body of `checkLoggedIn` (in `api/common/auth`) is not part of this model. It is taken to fail exactly when there is no session user.
- `Meteor.methods` registration: only the dispatch from a request to the method it names is modelled (`Requests.Step`).
- Mongo query semantics beyond a lookup by `_id` and `userId`, id generation (a fresh `id` parameter), and `new Date()` (a `now` parameter).
- The error objects: `Meteor.Error('Error', 'Access denied.')` and the login error are the two constructors of `Error`. Their code and message strings are not modelled.
- The timestamp: `createdAt` is whatever `now` is given. That it is no earlier than the call is a property of the clock, not of this code.

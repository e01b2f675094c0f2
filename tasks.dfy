/**
 * The task store behind the to-do list's server methods: the task record, the
 * two errors the methods throw, the ownership check, and the effect of each of
 * the three methods on the collection, as functions from the store before the
 * call to the store after it.
 *
 * The session is explicit: the caller is `None` when nobody is logged in and
 * `Some(u)` for user `u`. The collection is a map from task id to task; the id
 * of a new task and the clock reading for `createdAt` are supplied by the
 * environment (the store and `new Date()`), so they are parameters here.
 */
module Tasks {

  datatype Option<+T> = None | Some(value: T)

  type TaskId = string
  type UserId = string

  /** Milliseconds since the epoch, as a `Date` holds it; only copied, never inspected. */
  type Timestamp = nat

  /** One to-do item. `done` is absent until the task is first toggled. */
  datatype Task = Task(description: string, userId: UserId, createdAt: Timestamp, done: Option<bool>)

  type Store = map<TaskId, Task>

  /** The two errors the methods throw: `checkLoggedIn`'s, and "Access denied." */
  datatype Error = NotLoggedIn | AccessDenied

  /** How a method call ends: normally, or with one of the two errors. */
  datatype Outcome = Ok | Err(error: Error)

  /** What a method call answers and the store it leaves behind. */
  datatype Reply = Reply(outcome: Outcome, store: Store)

  /** The truth value of `task.done` in JavaScript: an absent flag reads as false. */
  predicate Done(t: Task) {
    t.done == Some(true)
  }

  /** Description, owner and creation time: the parts of a task only insert sets. */
  predicate SameRecord(a: Task, b: Task) {
    a.description == b.description && a.userId == b.userId && a.createdAt == b.createdAt
  }

  /** A `findOne` selector: always by `_id`, optionally also by `userId`. */
  datatype Query = Query(id: TaskId, owner: Option<UserId>)

  /** The collection's `findOne`: the task whose id (and owner, when given) match, if any. */
  function FindOne(store: Store, q: Query): (r: Option<Task>)
    ensures r.Some? <==> q.id in store && (q.owner.Some? ==> store[q.id].userId == q.owner.value)
    ensures r.Some? ==> r.value == store[q.id]
  {
    if q.id !in store then None
    else if q.owner.Some? && store[q.id].userId != q.owner.value then None
    else Some(store[q.id])
  }

  /** `checkLoggedIn`, whose body is not part of this model: there must be a session user. */
  function CheckLoggedIn(caller: Option<UserId>): Outcome {
    if caller.Some? then Ok else Err(NotLoggedIn)
  }

  /**
   * `checkTaskOwner`: the login check first, then a lookup by id and owner.
   * A missing task and somebody else's task give the same error.
   */
  function CheckTaskOwner(store: Store, caller: Option<UserId>, taskId: TaskId): (r: Outcome)
    ensures r == Ok <==> caller.Some? && taskId in store && store[taskId].userId == caller.value
    ensures caller.None? ==> r == Err(NotLoggedIn)
    ensures caller.Some? && r != Ok ==> r == Err(AccessDenied)
  {
    match CheckLoggedIn(caller)
    case Err(e) => Err(e)
    case Ok =>
      if FindOne(store, Query(taskId, caller)).None? then Err(AccessDenied) else Ok
  }

  /** The document `insertTask` adds: owned by the caller, stamped `now`, without `done`. */
  function NewTask(description: string, owner: UserId, now: Timestamp): Task {
    Task(description, owner, now, None)
  }

  /**
   * `insertTask` under the fresh id `id` the store assigns.
   * Without a session it fails and adds nothing; otherwise exactly one task
   * appears, the caller's, and every task that was there stays as it was.
   */
  function Insert(store: Store, caller: Option<UserId>, id: TaskId, description: string, now: Timestamp): (r: Reply)
    requires id !in store
    ensures caller.None? ==> r == Reply(Err(NotLoggedIn), store)
    ensures caller.Some? ==> r.outcome == Ok && r.store.Keys == store.Keys + {id}
    ensures caller.Some? ==> r.store[id].description == description && r.store[id].userId == caller.value
                             && r.store[id].createdAt == now && !Done(r.store[id])
    ensures forall k :: k in store ==> k in r.store && r.store[k] == store[k]
  {
    match CheckLoggedIn(caller)
    case Err(e) => Reply(Err(e), store)
    case Ok => Reply(Ok, store[id := NewTask(description, caller.value, now)])
  }

  /**
   * `removeTask`: the ownership check, then removal by id.
   * A rejected call leaves the store as it was; an accepted one drops exactly
   * `taskId` and leaves every other task untouched.
   */
  function Remove(store: Store, caller: Option<UserId>, taskId: TaskId): (r: Reply)
    ensures r.outcome == CheckTaskOwner(store, caller, taskId)
    ensures r.outcome != Ok ==> r.store == store
    ensures r.outcome == Ok ==> taskId in store && r.store.Keys == store.Keys - {taskId}
    ensures forall k :: k in r.store ==> k in store && r.store[k] == store[k]
  {
    match CheckTaskOwner(store, caller, taskId)
    case Err(e) => Reply(Err(e), store)
    case Ok => Reply(Ok, store - {taskId})
  }

  /**
   * `toggleTaskDone`: the ownership check, then a lookup by id and a `$set` of
   * `done` to the negation of what was read. Only that flag of that task changes.
   */
  function ToggleDone(store: Store, caller: Option<UserId>, taskId: TaskId): (r: Reply)
    ensures r.outcome == CheckTaskOwner(store, caller, taskId)
    ensures r.outcome != Ok ==> r.store == store
    ensures r.store.Keys == store.Keys
    ensures r.outcome == Ok ==> SameRecord(r.store[taskId], store[taskId])
                                && r.store[taskId].done.Some?
                                && Done(r.store[taskId]) == !Done(store[taskId])
    ensures forall k :: k in store && k != taskId ==> r.store[k] == store[k]
  {
    match CheckTaskOwner(store, caller, taskId)
    case Err(e) => Reply(Err(e), store)
    case Ok =>
      var task := FindOne(store, Query(taskId, None)).value;
      Reply(Ok, store[taskId := task.(done := Some(!Done(task)))])
  }

  /**
   * Toggling twice as the owner gives back the original truth value of `done`;
   * the store is the original one except that an absent flag is now an explicit false.
   */
  lemma ToggleTwice(store: Store, caller: Option<UserId>, taskId: TaskId)
    requires CheckTaskOwner(store, caller, taskId) == Ok
    ensures var twice := ToggleDone(ToggleDone(store, caller, taskId).store, caller, taskId);
            && twice.outcome == Ok
            && Done(twice.store[taskId]) == Done(store[taskId])
            && twice.store == store[taskId := store[taskId].(done := Some(Done(store[taskId])))]
  {
  }

  /** A logged-in caller who does not own the task, or names a missing one, may neither toggle nor remove it. */
  lemma ToggleByOtherRejected(store: Store, caller: Option<UserId>, taskId: TaskId)
    requires caller.Some?
    requires taskId !in store || store[taskId].userId != caller.value
    ensures ToggleDone(store, caller, taskId) == Reply(Err(AccessDenied), store)
    ensures Remove(store, caller, taskId) == Reply(Err(AccessDenied), store)
  {
  }
}

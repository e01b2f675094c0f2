/**
 * The server side of the three task methods: one object holding the task
 * collection, whose methods check the session and ownership and then insert,
 * remove or update a document in place. Each method states its new collection
 * outright and ties it to the matching function of module Tasks, about which
 * the properties are proved.
 */
module TaskMethods {
  import opened Tasks

  class TaskService {
    /** The tasks collection, by document id. */
    var tasks: Store

    constructor ()
      ensures tasks == map[]
    {
      tasks := map[];
    }

    /** `insertTask`: the store hands out `id`, the clock reads `now`. */
    method InsertTask(caller: Option<UserId>, id: TaskId, description: string, now: Timestamp) returns (outcome: Outcome)
      requires id !in tasks
      modifies this
      ensures Reply(outcome, tasks) == Insert(old(tasks), caller, id, description, now)
      ensures caller.None? ==> outcome == Err(NotLoggedIn) && tasks == old(tasks)
      ensures caller.Some? ==> outcome == Ok && tasks == old(tasks)[id := Task(description, caller.value, now, None)]
    {
      outcome := CheckLoggedIn(caller);
      if outcome.Err? {
        return;
      }
      tasks := tasks[id := NewTask(description, caller.value, now)];
    }

    /** `removeTask`: only the owner may delete, and only that one document goes. */
    method RemoveTask(caller: Option<UserId>, taskId: TaskId) returns (outcome: Outcome)
      modifies this
      ensures Reply(outcome, tasks) == Remove(old(tasks), caller, taskId)
      ensures outcome == CheckTaskOwner(old(tasks), caller, taskId)
      ensures outcome.Err? ==> tasks == old(tasks)
      ensures outcome.Ok? ==> tasks == old(tasks) - {taskId}
    {
      outcome := CheckTaskOwner(tasks, caller, taskId);
      if outcome.Err? {
        return;
      }
      tasks := tasks - {taskId};
    }

    /** `toggleTaskDone`: only the owner may flip `done`; nothing else is written. */
    method ToggleTaskDone(caller: Option<UserId>, taskId: TaskId) returns (outcome: Outcome)
      modifies this
      ensures Reply(outcome, tasks) == ToggleDone(old(tasks), caller, taskId)
      ensures outcome == CheckTaskOwner(old(tasks), caller, taskId)
      ensures outcome.Err? ==> tasks == old(tasks)
      ensures outcome.Ok? ==> tasks == old(tasks)[taskId := old(tasks)[taskId].(done := Some(!Done(old(tasks)[taskId])))]
    {
      outcome := CheckTaskOwner(tasks, caller, taskId);
      if outcome.Err? {
        return;
      }
      var found := FindOne(tasks, Query(taskId, None));
      var task := found.value;
      tasks := tasks[taskId := task.(done := Some(!Done(task)))];
    }
  }

  /**
   * A walk through the collection's life: A adds "Buy milk", B may not toggle
   * it, A toggles it on and off again, and A removes it.
   */
  method BuyMilk(a: UserId, b: UserId, id: TaskId, now: Timestamp)
    requires a != b
  {
    var service := new TaskService();
    var outcome := service.InsertTask(Some(a), id, "Buy milk", now);
    assert outcome == Ok && service.tasks.Keys == {id};
    assert service.tasks[id].userId == a && !Done(service.tasks[id]);
    var inserted := service.tasks[id];

    outcome := service.ToggleTaskDone(Some(b), id);
    assert outcome == Err(AccessDenied) && service.tasks[id] == inserted;

    outcome := service.ToggleTaskDone(Some(a), id);
    assert outcome == Ok && Done(service.tasks[id]);

    outcome := service.ToggleTaskDone(Some(a), id);
    assert outcome == Ok && !Done(service.tasks[id]);

    outcome := service.RemoveTask(None, id);
    assert outcome == Err(NotLoggedIn) && id in service.tasks;

    outcome := service.RemoveTask(Some(a), id);
    assert outcome == Ok && id !in service.tasks;
  }
}

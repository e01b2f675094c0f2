/**
 * The three methods the server registers, seen from the outside: a request
 * names the method and its arguments and comes with the caller's session.
 * A run applies requests one after another, each atomically, and the lemmas
 * here say what no sequence of calls can do: change the owner, description or
 * creation time of a task, or touch a task without its owner's calls.
 */
module Requests {
  import opened Tasks

  /** A call of one registered method; for insert, also the id and time the environment supplies. */
  datatype Call =
    | InsertTask(id: TaskId, description: string, now: Timestamp)
    | RemoveTask(taskId: TaskId)
    | ToggleTaskDone(taskId: TaskId)

  datatype Request = Request(caller: Option<UserId>, call: Call)

  /** The store assigns a new task an id it does not already hold. */
  predicate Admissible(store: Store, req: Request) {
    req.call.InsertTask? ==> req.call.id !in store
  }

  /**
   * Dispatch of one request. Without a session nothing happens; a rejected
   * call changes nothing; a task keeps its description, owner and creation
   * time; a task is left exactly as it was unless its owner made the call; the
   * only key that can appear is the id of an insert.
   */
  function Step(store: Store, req: Request): (r: Reply)
    requires Admissible(store, req)
    ensures req.caller.None? ==> r.outcome == Err(NotLoggedIn)
    ensures r.outcome.Err? ==> r.store == store
    ensures forall k :: k in store && k in r.store ==> SameRecord(r.store[k], store[k])
    ensures forall k :: k in store && req.caller != Some(store[k].userId) ==> k in r.store && r.store[k] == store[k]
    ensures forall k :: k in r.store && k !in store ==> req.call.InsertTask? && k == req.call.id
  {
    match req.call
    case InsertTask(id, description, now) => Insert(store, req.caller, id, description, now)
    case RemoveTask(taskId) => Remove(store, req.caller, taskId)
    case ToggleTaskDone(taskId) => ToggleDone(store, req.caller, taskId)
  }

  /** The ids the inserts of a run ask for. */
  function InsertedIds(reqs: seq<Request>): set<TaskId> {
    if reqs == [] then {}
    else (if reqs[0].call.InsertTask? then {reqs[0].call.id} else {}) + InsertedIds(reqs[1..])
  }

  /** Every insert of the run gets an id that is fresh when it runs. */
  predicate Runnable(store: Store, reqs: seq<Request>)
    decreases |reqs|
  {
    reqs == [] || (Admissible(store, reqs[0]) && Runnable(Step(store, reqs[0]).store, reqs[1..]))
  }

  /** The store after the requests run one after another; every task in it was there before or was inserted by the run. */
  function Run(store: Store, reqs: seq<Request>): (r: Store)
    requires Runnable(store, reqs)
    ensures forall k :: k in r && k !in store ==> k in InsertedIds(reqs)
    decreases |reqs|
  {
    if reqs == [] then store else Run(Step(store, reqs[0]).store, reqs[1..])
  }

  /**
   * Ownership is fixed at insert: a task that is still there after a run (and
   * whose id the run did not hand out again) has the owner, description and
   * creation time it had before.
   */
  lemma {:induction false} RunKeepsRecord(store: Store, reqs: seq<Request>, k: TaskId)
    requires Runnable(store, reqs)
    requires k in store && k !in InsertedIds(reqs)
    requires k in Run(store, reqs)
    ensures SameRecord(Run(store, reqs)[k], store[k])
    decreases |reqs|
  {
    if reqs != [] {
      var next := Step(store, reqs[0]).store;
      assert k !in InsertedIds(reqs[1..]);
      if k in next {
        RunKeepsRecord(next, reqs[1..], k);
      }
    }
  }

  /** A run in which the owner of a task makes no call leaves that task exactly as it was. */
  lemma {:induction false} RunWithoutOwner(store: Store, reqs: seq<Request>, k: TaskId)
    requires Runnable(store, reqs)
    requires k in store
    requires forall i :: 0 <= i < |reqs| ==> reqs[i].caller != Some(store[k].userId)
    ensures k in Run(store, reqs) && Run(store, reqs)[k] == store[k]
    decreases |reqs|
  {
    if reqs != [] {
      var next := Step(store, reqs[0]).store;
      assert k in next && next[k] == store[k];
      forall i | 0 <= i < |reqs[1..]|
        ensures reqs[1..][i].caller != Some(next[k].userId)
      {
        assert reqs[1..][i] == reqs[i + 1];
      }
      RunWithoutOwner(next, reqs[1..], k);
    }
  }

  /** Requests made without a session change nothing, however many there are. */
  lemma {:induction false} AnonymousRunChangesNothing(store: Store, reqs: seq<Request>)
    requires Runnable(store, reqs)
    requires forall i :: 0 <= i < |reqs| ==> reqs[i].caller.None?
    ensures Run(store, reqs) == store
    decreases |reqs|
  {
    if reqs != [] {
      assert Step(store, reqs[0]).store == store;
      AnonymousRunChangesNothing(store, reqs[1..]);
    }
  }
}

/**
 * The task store of the `Web3TodoApp` page component: the task list, the
 * creation form's draft and the dialog flag, and the two actions that change
 * them (`createTask`, `completeTask`).
 */
module TodoApp {
  import opened Wrappers
  import opened Text
  import opened Tasks
  import opened TaskMetrics

  /** The three tasks the page starts with; dates are UTC midnight of the given day. */
  const SeedTasks: seq<Task> := [
    Task("1", "Estudar Smart Contracts",
      "Aprender sobre desenvolvimento de contratos inteligentes em Solidity",
      Completed, 1705276800000, Some(1705708800000), 1000000000000000000),
    Task("2", "Implementar DApp",
      "Desenvolver aplicação descentralizada para gerenciamento de tarefas",
      Pending, 1705536000000, None, 500000000000000000),
    Task("3", "Deploy na Testnet",
      "Fazer deploy do contrato na rede de teste Ethereum",
      Pending, 1705708800000, None, 250000000000000000)
  ]

  /** `amount || 0`: a NaN amount (`None`) becomes 0; any number is kept. */
  function WeiOrZero(amount: Option<int>): (r: int)
    ensures amount.None? ==> r == 0
    ensures amount.Some? ==> r == amount.value
  {
    match amount
    case None => 0
    case Some(w) => w
  }

  /**
   * `tasks.map((task) => task.id === taskId ? { ...task, status: "completed", completedAt: now } : task)`:
   * every task with the id is stamped completed, whatever its status; the others are kept.
   */
  function CompleteMatching(ts: seq<Task>, taskId: string, now: Timestamp): (r: seq<Task>)
    ensures |r| == |ts|
    ensures forall i :: 0 <= i < |ts| ==>
      r[i] == if ts[i].id == taskId then MarkCompleted(ts[i], now) else ts[i]
  {
    if ts == [] then
      []
    else
      var head := if ts[0].id == taskId then MarkCompleted(ts[0], now) else ts[0];
      [head] + CompleteMatching(ts[1..], taskId, now)
  }

  /** The only status changes are staying put and pending to completed. */
  predicate AllowedTransition(before: Status, after: Status)
  {
    before == after || (before == Pending && after == Completed)
  }

  /**
   * Completion keeps the order of the list, never reopens a task, completes
   * exactly the tasks with the id, and leaves every task's identity, text,
   * creation date and stake alone.
   */
  lemma CompleteTransitions(ts: seq<Task>, taskId: string, now: Timestamp)
    ensures var r := CompleteMatching(ts, taskId, now);
      forall i :: 0 <= i < |ts| ==>
        && AllowedTransition(ts[i].status, r[i].status)
        && (r[i].status == Completed <==> ts[i].status == Completed || ts[i].id == taskId)
        && r[i].(status := ts[i].status, completedAt := ts[i].completedAt) == ts[i]
  {
  }

  /** Completing an id no task carries leaves the list as it was. */
  lemma CompleteUnknownIdIsNoop(ts: seq<Task>, taskId: string, now: Timestamp)
    requires forall i :: 0 <= i < |ts| ==> ts[i].id != taskId
    ensures CompleteMatching(ts, taskId, now) == ts
  {
  }

  /** Completion keeps every task's status in step with its completion date. */
  lemma CompleteKeepsStampsMatching(ts: seq<Task>, taskId: string, now: Timestamp)
    requires AllStampsMatch(ts)
    ensures AllStampsMatch(CompleteMatching(ts, taskId, now))
  {
  }

  /**
   * Completing the same id twice is not a no-op: the second call re-stamps
   * `completedAt`, so the list is as if only the second call had happened.
   */
  lemma CompleteTwice(ts: seq<Task>, taskId: string, first: Timestamp, second: Timestamp)
    ensures CompleteMatching(CompleteMatching(ts, taskId, first), taskId, second)
         == CompleteMatching(ts, taskId, second)
  {
  }

  /**
   * Completion keeps `total` and `totalWei`, never lowers `completed`, and
   * raises it when some pending task carries the id.
   */
  lemma {:induction false} CompleteMetrics(ts: seq<Task>, taskId: string, now: Timestamp)
    ensures var before, after := ComputeMetrics(ts), ComputeMetrics(CompleteMatching(ts, taskId, now));
      && after.total == before.total
      && after.totalWei == before.totalWei
      && after.completed >= before.completed
      && after.pending <= before.pending
      && ((exists i :: 0 <= i < |ts| && ts[i].id == taskId && ts[i].status == Pending)
            ==> after.completed > before.completed)
  {
    var r := CompleteMatching(ts, taskId, now);
    if ts != [] {
      CompleteMetrics(ts[1..], taskId, now);
      assert r[1..] == CompleteMatching(ts[1..], taskId, now);
      if exists i :: 0 <= i < |ts| && ts[i].id == taskId && ts[i].status == Pending {
        var i :| 0 <= i < |ts| && ts[i].id == taskId && ts[i].status == Pending;
        if i > 0 {
          assert ts[1..][i - 1] == ts[i];
        }
      }
    }
  }

  /** The page component's state that the task actions read and write. */
  class Web3TodoApp {
    var tasks: seq<Task>
    var newTask: Draft
    var isDialogOpen: bool

    /** Each task's status agrees with the presence of its completion date. */
    predicate Valid()
      reads this
    {
      AllStampsMatch(tasks)
    }

    /** The initial `useState` values: the seeded list, an empty draft, a closed dialog. */
    constructor ()
      ensures tasks == SeedTasks && newTask == EmptyDraft && !isDialogOpen
      ensures Valid()
    {
      tasks := SeedTasks;
      newTask := EmptyDraft;
      isDialogOpen := false;
    }

    /**
     * `createTask`, with the clock read `Date.now()` / `new Date()` passed in as
     * `id` and `now`, and `parseWei` standing for `parseFloat(input) * 10^18`
     * (`None` when that is NaN). A blank name changes nothing; otherwise one
     * pending task is appended and the form is reset and closed.
     */
    method CreateTask(id: string, now: Timestamp, parseWei: string -> Option<int>)
      modifies this
      ensures AllWhitespace(old(newTask.name)) ==>
        tasks == old(tasks) && newTask == old(newTask) && isDialogOpen == old(isDialogOpen)
      ensures !AllWhitespace(old(newTask.name)) ==>
        && tasks == old(tasks) + [Task(id, old(newTask.name), old(newTask.description),
                                       Pending, now, None, WeiOrZero(parseWei(old(newTask.weiValue))))]
        && newTask == EmptyDraft
        && !isDialogOpen
      ensures old(Valid()) ==> Valid()
    {
      TrimEmptyIffBlank(newTask.name);
      if Trim(newTask.name) == [] {
        return;
      }
      var task := Task(id, newTask.name, newTask.description, Pending, now, None,
                       WeiOrZero(parseWei(newTask.weiValue)));
      tasks := tasks + [task];
      newTask := EmptyDraft;
      isDialogOpen := false;
    }

    /** `completeTask(taskId)`, with the clock read `new Date()` passed in as `now`. */
    method CompleteTask(taskId: string, now: Timestamp)
      modifies this`tasks
      ensures tasks == CompleteMatching(old(tasks), taskId, now)
      ensures old(Valid()) ==> Valid()
    {
      tasks := CompleteMatching(tasks, taskId, now);
    }
  }

  /** The seeded list is consistent, and its metrics are 3 tasks, 1 completed, 2 pending, 1.75 ETH. */
  lemma SeedMetrics()
    ensures AllStampsMatch(SeedTasks)
    ensures ComputeMetrics(SeedTasks) == Metrics(3, 1, 2, 1750000000000000000)
  {
    assert SeedTasks[1..][1..][1..] == [];
  }
}

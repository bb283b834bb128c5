/**
 * The `Task` record of the to-do page and the form draft it is created from.
 */
module Tasks {
  import opened Wrappers

  /** A point in time, in milliseconds since the Unix epoch (a `Date`). */
  type Timestamp = nat

  /** `status: "pending" | "completed"`. */
  datatype Status = Pending | Completed

  /**
   * One to-do item. `weiValue` is the task's stake in wei (10^18 wei = 1 ETH);
   * it is an `int` because nothing in the page rejects a negative amount.
   */
  datatype Task = Task(
    id: string,
    name: string,
    description: string,
    status: Status,
    createdAt: Timestamp,
    completedAt: Option<Timestamp>,
    weiValue: int)

  /** The creation form's contents (`newTask`); the amount is still the raw input text. */
  datatype Draft = Draft(name: string, description: string, weiValue: string)

  /** The draft the page starts with and resets to after a creation. */
  const EmptyDraft := Draft("", "", "")

  /** A task is completed exactly when it carries a completion date. */
  predicate StampMatchesStatus(t: Task)
  {
    t.status == Completed <==> t.completedAt.Some?
  }

  /** Every task of the list satisfies `StampMatchesStatus`. */
  predicate AllStampsMatch(ts: seq<Task>)
  {
    forall i :: 0 <= i < |ts| ==> StampMatchesStatus(ts[i])
  }

  /** The task with `status: "completed"` and the given `completedAt`; every other field kept. */
  function MarkCompleted(t: Task, now: Timestamp): (r: Task)
    ensures r.status == Completed && r.completedAt == Some(now)
    ensures r.id == t.id && r.name == t.name && r.description == t.description
    ensures r.createdAt == t.createdAt && r.weiValue == t.weiValue
  {
    t.(status := Completed, completedAt := Some(now))
  }
}

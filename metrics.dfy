/**
 * The `metrics` object of the page: counts by status and the summed stake,
 * recomputed from the task list on every render.
 */
module TaskMetrics {
  import opened Tasks

  datatype Metrics = Metrics(total: nat, completed: nat, pending: nat, totalWei: int)

  /** `ts.filter((t) => t.status === s)`: the tasks with status `s`, in list order. */
  function WithStatus(ts: seq<Task>, s: Status): (r: seq<Task>)
    ensures |r| <= |ts|
    ensures forall t :: t in r ==> t.status == s
  {
    if ts == [] then []
    else
      (if ts[0].status == s then [ts[0]] else []) + WithStatus(ts[1..], s)
  }

  /** `ts.reduce((sum, task) => sum + task.weiValue, acc)`: a left fold. */
  function ReduceWei(acc: int, ts: seq<Task>): (r: int)
    ensures r == acc + WeiSum(ts)
    decreases ts
  {
    if ts == [] then acc else ReduceWei(acc + ts[0].weiValue, ts[1..])
  }

  /**
   * The filter keeps every occurrence of a task with status `s` and drops
   * every other task: as multisets, `WithStatus(ts, s)` is `ts` restricted to `s`.
   */
  lemma {:induction false} WithStatusOccurrences(ts: seq<Task>, s: Status, t: Task)
    ensures multiset(WithStatus(ts, s))[t] == if t.status == s then multiset(ts)[t] else 0
  {
    if ts != [] {
      assert ts == [ts[0]] + ts[1..];
      WithStatusOccurrences(ts[1..], s, t);
    }
  }

  /** Reference definition: the sum of `weiValue` over the list. */
  function WeiSum(ts: seq<Task>): (r: int)
  {
    if ts == [] then 0 else ts[0].weiValue + WeiSum(ts[1..])
  }

  /** The `metrics` object for task list `ts`. */
  function ComputeMetrics(ts: seq<Task>): (m: Metrics)
    ensures m.total == |ts|
    ensures m.completed + m.pending == m.total
    ensures m.totalWei == WeiSum(ts)
    ensures m.completed == |WithStatus(ts, Completed)| == |ts| - |WithStatus(ts, Pending)|
    ensures m.pending == |WithStatus(ts, Pending)|
  {
    StatusesPartition(ts);
    Metrics(
      total := |ts|,
      completed := |WithStatus(ts, Completed)|,
      pending := |WithStatus(ts, Pending)|,
      totalWei := ReduceWei(0, ts))
  }

  /** Status has two values, so every task is counted in exactly one of the two filters. */
  lemma {:induction false} StatusesPartition(ts: seq<Task>)
    ensures |WithStatus(ts, Completed)| + |WithStatus(ts, Pending)| == |ts|
  {
    if ts != [] {
      StatusesPartition(ts[1..]);
    }
  }

  /** The summed stake of a concatenation is the sum of the parts' stakes. */
  lemma {:induction false} WeiSumAppend(a: seq<Task>, b: seq<Task>)
    ensures WeiSum(a + b) == WeiSum(a) + WeiSum(b)
  {
    if a == [] {
      assert a + b == b;
    } else {
      assert (a + b)[1..] == a[1..] + b;
      WeiSumAppend(a[1..], b);
    }
  }

  /** Filtering a concatenation filters each part, in order. */
  lemma {:induction false} WithStatusAppend(a: seq<Task>, b: seq<Task>, s: Status)
    ensures WithStatus(a + b, s) == WithStatus(a, s) + WithStatus(b, s)
  {
    if a == [] {
      assert a + b == b;
    } else {
      var head := if a[0].status == s then [a[0]] else [];
      assert (a + b)[0] == a[0];
      assert (a + b)[1..] == a[1..] + b;
      WithStatusAppend(a[1..], b, s);
      calc {
        WithStatus(a + b, s);
        head + WithStatus(a[1..] + b, s);
        head + (WithStatus(a[1..], s) + WithStatus(b, s));
        (head + WithStatus(a[1..], s)) + WithStatus(b, s);
        WithStatus(a, s) + WithStatus(b, s);
      }
    }
  }

  /**
   * Appending a pending task adds one to `total` and `pending`, keeps
   * `completed`, and adds the task's stake to `totalWei`.
   */
  lemma AppendPendingMetrics(ts: seq<Task>, t: Task)
    requires t.status == Pending
    ensures var before, after := ComputeMetrics(ts), ComputeMetrics(ts + [t]);
      && after.total == before.total + 1
      && after.completed == before.completed
      && after.pending == before.pending + 1
      && after.totalWei == before.totalWei + t.weiValue
  {
    WithStatusAppend(ts, [t], Completed);
    WithStatusAppend(ts, [t], Pending);
    WeiSumAppend(ts, [t]);
  }
}

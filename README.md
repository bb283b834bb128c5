# Web3 to-do list: task store and metrics

A model of the task store of the `Web3TodoApp` page (`app/page.tsx`): a
client-side to-do list whose tasks carry a stake in wei (10^18 wei = 1 ETH).
The page keeps an ordered list of tasks, a creation-form draft and a dialog
flag in component state. Two actions change them: `createTask` appends a
pending task built from the draft, and `completeTask` stamps every task with
a given id as completed. The `metrics` object counts tasks by status and
sums their stakes.

Files:

- `wrappers.dfy` (`Wrappers`): `Option`, for an absent `completedAt` and a NaN parse.
- `text.dfy` (`Text`): `String.prototype.trim` over the ECMAScript whitespace set.
- `tasks.dfy` (`Tasks`): the `Task` record, the `Draft`, and the status/date invariant.
- `metrics.dfy` (`TaskMetrics`): the `metrics` fold and its laws.
- `store.dfy` (`TodoApp`): the `Web3TodoApp` class with `CreateTask` and
  `CompleteTask`, the pure `CompleteMatching` map, the seeded list, and lemmas
  about completion.

Modelling choices:

- Clock reads (`Date.now()` for the id, `new Date()` for the dates) are
  method parameters, one reading per call. Timestamps are milliseconds since
  the Unix epoch.
- Ids are not assumed unique. The code derives them from the clock and does
  not check them, and `completeTask` updates every task whose id matches.
- `Number.parseFloat(input) * 10^18` is the parameter `parseWei`, a function
  from the input text to `Option<int>` (`None` stands for NaN). The `|| 0`
  coercion maps `None` to 0. A falsy 0 or -0 is already 0 as an integer.
- `weiValue` is an `int`, not a `nat`. The code does not reject a negative
  amount: the input `"-1"` yields -10^18 wei. The stake can therefore be
  negative.
- `completeTask` does not check a task's current status. Completing an
  already-completed task keeps it completed and overwrites `completedAt`
  (`CompleteTwice`).

## Model

| member | source | states |
|---|---|---|
| `Text.IsWhitespace` | app/page.tsx:75 | every character `trim()` strips is a single UTF-16 code unit (below U+10000) |
| `Text.WhitespaceIsTrimmedChar` | app/page.tsx:75 | the stripped characters are exactly the ECMAScript WhiteSpace and LineTerminator code points, listed one by one |
| `Text.LeadingWhitespace` | app/page.tsx:75 | the result is the length of the longest all-whitespace prefix: it is whitespace and the next character is not |
| `Text.TrailingWhitespace` | app/page.tsx:75 | the result is the length of the longest all-whitespace suffix: it is whitespace and the character before it is not |
| `Text.Trim` | app/page.tsx:75 | `trim()` is the slice of the string that starts after its whitespace prefix and is followed only by whitespace, and it has no whitespace at either end |
| `Text.TrimEmptyIffBlank` | app/page.tsx:75 | `trim()` is empty exactly when every character is whitespace, in both directions |
| `Tasks.MarkCompleted` | app/page.tsx:94 | the spread update sets status completed and `completedAt`, and keeps id, name, description, creation date and stake |
| `TaskMetrics.WithStatus` | app/page.tsx:101-102 | the status filter is no longer than the list and holds only tasks with that status |
| `TaskMetrics.WithStatusOccurrences` | app/page.tsx:101-102 | the filter keeps every occurrence of each task with the status and no other task (multiset equality) |
| `TaskMetrics.ReduceWei` | app/page.tsx:103 | the left `reduce` from an accumulator equals the accumulator plus the separately defined sum of `weiValue` |
| `TaskMetrics.ComputeMetrics` | app/page.tsx:99-104 | `total` is the list length, `completed` and `pending` are the sizes of the two status filters and add up to `total`, and `totalWei` is the sum of all stakes |
| `TaskMetrics.StatusesPartition` | app/page.tsx:18 | because status has two values, the completed and pending filters together count every task once |
| `TaskMetrics.WeiSumAppend` | app/page.tsx:103 | the stake sum of a concatenation is the sum of the parts' stake sums |
| `TaskMetrics.WithStatusAppend` | app/page.tsx:101-102 | filtering a concatenation is the concatenation of the filtered parts |
| `TaskMetrics.AppendPendingMetrics` | app/page.tsx:86 | appending a pending task raises `total` and `pending` by one, keeps `completed`, and adds its stake to `totalWei` |
| `TodoApp.WeiOrZero` | app/page.tsx:83 | the coercion of the parsed amount gives 0 for NaN and the amount itself otherwise |
| `TodoApp.CompleteMatching` | app/page.tsx:92-96 | the mapped list has the same length and order; each task with the id is completed and stamped with the given date, every other task is unchanged |
| `TodoApp.CompleteTransitions` | app/page.tsx:94 | a task is never reopened; after the call a task is completed exactly when it was already completed or has the id; only status and `completedAt` can change |
| `TodoApp.CompleteUnknownIdIsNoop` | app/page.tsx:93-94 | completing an id that no task has leaves the list unchanged |
| `TodoApp.CompleteKeepsStampsMatching` | app/page.tsx:94 | completion preserves "status is completed exactly when `completedAt` is present" |
| `TodoApp.CompleteTwice` | app/page.tsx:94 | completing the same id twice gives the list that the second call alone gives, so the second date overwrites the first |
| `TodoApp.CompleteMetrics` | app/page.tsx:92-103 | completion keeps `total` and `totalWei`, never lowers `completed` or raises `pending`, and raises `completed` when a pending task has the id |
| `TodoApp.Web3TodoApp.constructor` | app/page.tsx:27-59 | the initial state is the three seeded tasks, an empty draft and a closed dialog, and it satisfies the status/date invariant |
| `TodoApp.Web3TodoApp.CreateTask` | app/page.tsx:74-89 | a whitespace-only name changes nothing; otherwise exactly one pending, undated task with the draft's name, description and coerced stake is appended, the draft is emptied and the dialog closed; the status/date invariant is preserved |
| `TodoApp.Web3TodoApp.CompleteTask` | app/page.tsx:91-97 | the list becomes its completion map; the draft and dialog flag are untouched; the status/date invariant is preserved |
| `TodoApp.SeedMetrics` | app/page.tsx:27-53 | the seeded list satisfies the status/date invariant and has 3 tasks, 1 completed, 2 pending and 1.75 ETH in total |

## Left out

- Rendering, styling, badges and icons (app/page.tsx:114-339) are presentation only.
- The wallet connect/disconnect simulation and its two-second timer
  (app/page.tsx:61-72) only toggle booleans after a delay.
- The wallet gating of the create and complete buttons is a UI affordance, not
  a property of the data.
- The form's `onChange` handlers and the dialog's open/close callbacks are
  plain field setters in the markup. The model's draft and dialog fields are
  public and can be set directly.
- `formatWei` (float division and `toFixed(4)`) and `formatDate`
  (`toLocaleDateString("pt-BR")`) are floating-point and locale formatting.
- `parseWei`: the float arithmetic of `parseFloat(...) * 1e18` (rounding,
  fractional wei, Infinity) is not modelled. The parse is an abstract
  function to integers.
- `Date.now()` and `new Date()` are clock reads and become parameters.
- CompleteMatching: the source calls `new Date()` inside the `map` callback,
  once for each task whose id matches, so with duplicate ids the matching
  tasks can get different `completedAt` values. The model reads the clock once
  per call and gives every match the same date.
- ComputeMetrics: the `reduce` at app/page.tsx:103 adds JavaScript floats,
  which round above 2^53 wei and can overflow to Infinity. The model sums with
  exact integer addition.
- Strings are sequences of Unicode scalar values, not UTF-16 code units. This
  does not affect trimming, because every whitespace character is in the
  Basic Multilingual Plane.

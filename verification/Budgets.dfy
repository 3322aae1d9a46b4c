/** Queue budgets: what one claim may take from a queue row. */
module Budgets {
  import opened Tables
  import opened TokenBucket

  /** `queue_row_needs_lock`. */
  predicate NeedsLock(running: int, max: int, paused: bool) {
    !paused && max < MAX_I32 && running < max
  }

  predicate QueueNeedsLock(q: Queue) {
    NeedsLock(q.running, q.maxConcurrency, q.paused)
  }

  function QueueSlots(q: Queue): int {
    ConcurrencySlots(q.running, q.maxConcurrency, q.paused)
  }

  /** `budget_for`: a queue without a row is unlimited. */
  function BudgetFor(budget: map<string, int>, q: string): int {
    if q in budget then budget[q] else MAX_I32
  }

  function Charge(budget: map<string, int>, q: string): map<string, int> {
    if q in budget then budget[q := Max(budget[q] - 1, 0)] else budget
  }
}

/**
 * Go's `context.Context`, as far as the modelled code uses it: a context is
 * either never cancelled, or is cancelled from some point on. The code polls
 * `ctx.Err()` / `ctx.Done()` at fixed places; those polls are numbered from 0
 * within one call, and a cancelled context stays cancelled.
 */
module Ctx {

  datatype Context = Background | CancelledAfter(checks: nat) {
    /** Whether poll number `i` finds the context cancelled. */
    predicate DoneAt(i: nat) {
      CancelledAfter? && i >= checks
    }
  }

  lemma DoneStays(c: Context, i: nat, j: nat)
    requires i <= j && c.DoneAt(i)
    ensures c.DoneAt(j)
  {
  }
}

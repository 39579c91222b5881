/**
 Properties relating the registry operations of module Cancellation to each
 other: the well-formedness they preserve, and how cancelling, launching and
 fulfilment interact.
 */
module Lifecycle {
  import opened Wrappers
  import opened Token
  import opened Cancellation

  lemma CancellablePreservesValid(c: CancellationContext, fn: TokenId -> FactoryOutcome)
    requires Valid(c)
    ensures Valid(Cancellable(c, fn).0)
  {
  }

  lemma CancelPreservesValid(c: CancellationContext, h: HandleId)
    requires Valid(c)
    ensures Valid(Cancel(c, h).0)
  {
  }

  lemma CancelAllPreservesValid(c: CancellationContext)
    requires Valid(c)
    ensures Valid(CancelAll(c))
  {
  }

  lemma OnFulfilledPreservesValid(c: CancellationContext, h: HandleId)
    requires Valid(c)
    ensures Valid(OnFulfilled(c, h))
  {
  }

  /** `setContext` followed by `deleteContext` of the same handle is
      `deleteContext` alone, and re-setting an entry to its own terminator
      changes nothing. */
  lemma SetThenDelete(c: CancellationContext, h: HandleId, t: TokenId)
    ensures DeleteContext(SetContext(c, h, t), h) == DeleteContext(c, h)
    ensures h in c.cancellers ==> SetContext(c, h, c.cancellers[h]) == c
  {
  }

  /** Launching then cancelling settles exactly the signal the factory was
      handed, to `undefined`, and leaves the registry as the launch left it. */
  lemma LaunchThenCancel(c: CancellationContext, fn: TokenId -> FactoryOutcome)
    requires fn(|c.signals|).Returned?
    ensures var c1 := Cancellable(c, fn).0;
            Cancel(c1, fn(|c.signals|).handle)
              == (CancellationContext(c1.cancellers, c1.signals[|c.signals| := Settled(Undefined)]), Pass)
  {
  }

  /** Once a handle has fulfilled, cancelling it throws and changes nothing. */
  lemma CancelAfterFulfilment(c: CancellationContext, h: HandleId)
    ensures Cancel(OnFulfilled(c, h), h) == (OnFulfilled(c, h), Fail(NotAFunction))
  {
  }

  /** Fulfilment never settles or unsettles any signal, and a pending signal
      whose handle fulfilled can no longer be reached through `cancel`. */
  lemma FulfilmentOrphansSignal(c: CancellationContext, h: HandleId)
    requires Valid(c) && h in c.cancellers
    ensures var c1 := OnFulfilled(c, h);
            c1.signals[c.cancellers[h]] == c.signals[c.cancellers[h]]
            && c.cancellers[h] !in c1.cancellers.Values
  {
  }

  /** A second `cancel` of the same handle has no effect. */
  lemma CancelOneShot(c: CancellationContext, h: HandleId)
    ensures Cancel(Cancel(c, h).0, h) == Cancel(c, h)
  {
  }

  /** A second `cancelAll` has no effect. */
  lemma CancelAllOneShot(c: CancellationContext)
    ensures CancelAll(CancelAll(c)) == CancelAll(c)
  {
  }

  /** `cancel` after `cancelAll` of a registered handle has no effect. */
  lemma CancelAfterCancelAll(c: CancellationContext, h: HandleId)
    requires h in c.cancellers
    ensures Cancel(CancelAll(c), h) == (CancelAll(c), Pass)
  {
  }

  /** `cancelAll` after `cancel` ends in the same state as `cancelAll` alone. */
  lemma CancelAllAfterCancel(c: CancellationContext, h: HandleId)
    ensures CancelAll(Cancel(c, h).0) == CancelAll(c)
  {
  }

  /** `cancel` fires one terminator: the signal of every other registered
      handle is left as it was. */
  lemma CancelIsolated(c: CancellationContext, g: HandleId, h: HandleId)
    requires Valid(c)
    requires g in c.cancellers && h in c.cancellers && g != h
    ensures Cancel(c, h).0.signals[c.cancellers[g]] == c.signals[c.cancellers[g]]
  {
  }

  /** A handle launched after `cancelAll` is not affected by it: its signal is
      pending and it is the only new entry. */
  lemma LaunchAfterCancelAll(c: CancellationContext, fn: TokenId -> FactoryOutcome)
    requires fn(|c.signals|).Returned?
    ensures var c1 := Cancellable(CancelAll(c), fn).0;
            c1.signals[|c.signals|] == Pending
            && fn(|c.signals|).handle in c1.cancellers
            && c1.cancellers[fn(|c.signals|).handle] == |c.signals|
  {
  }
}

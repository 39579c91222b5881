/**
 Runs of a context: the operations a caller can invoke and the settlement
 events of the handles, applied in sequence. Settlement is asynchronous in
 the source; here it is an event that happens between operations.
 */
module Trace {
  import opened Wrappers
  import opened Token
  import opened Cancellation
  import opened Lifecycle

  datatype Event =
    | Launch(fn: TokenId -> FactoryOutcome)   // cancellable(fn)
    | CancelOne(h: HandleId)                   // cancel(h)
    | CancelEvery                              // cancelAll()
    | Fulfilled(h: HandleId)                   // h fulfils; the reaction of cancellable runs
    | Rejected(h: HandleId)                    // h rejects; no reaction is attached for it

  /** The state after one event; a thrown exception leaves the state the
      operation had reached when it threw. */
  function Step(c: CancellationContext, e: Event): CancellationContext {
    match e
    case Launch(fn) => Cancellable(c, fn).0
    case CancelOne(h) => Cancel(c, h).0
    case CancelEvery => CancelAll(c)
    case Fulfilled(h) => OnFulfilled(c, h)
    case Rejected(_) => c
  }

  function Run(c: CancellationContext, es: seq<Event>): CancellationContext
    decreases |es|
  {
    if es == [] then c else Run(Step(c, es[0]), es[1..])
  }

  /** Event `e` calls the terminator of token `t` in state `c`. */
  ghost predicate Fires(c: CancellationContext, e: Event, t: TokenId) {
    || (e.CancelOne? && e.h in c.cancellers && c.cancellers[e.h] == t)
    || (e.CancelEvery? && t in c.cancellers.Values)
  }

  lemma StepPreservesValid(c: CancellationContext, e: Event)
    requires Valid(c)
    ensures Valid(Step(c, e))
  {
    match e
    case Launch(fn) => CancellablePreservesValid(c, fn);
    case CancelOne(h) => CancelPreservesValid(c, h);
    case CancelEvery => CancelAllPreservesValid(c);
    case Fulfilled(h) => OnFulfilledPreservesValid(c, h);
    case Rejected(_) =>
  }

  /** Every state reachable from a valid one is valid: each registered
      terminator has a token, terminators are not shared, and every settled
      signal holds `undefined`. */
  lemma {:induction false} RunPreservesValid(c: CancellationContext, es: seq<Event>)
    requires Valid(c)
    ensures Valid(Run(c, es))
    decreases |es|
  {
    if es != [] {
      StepPreservesValid(c, es[0]);
      RunPreservesValid(Step(c, es[0]), es[1..]);
    }
  }

  /** A fresh context only ever reaches valid states. */
  lemma FromNewValid(es: seq<Event>)
    ensures Valid(Run(New(), es))
  {
    RunPreservesValid(New(), es);
  }

  /** No event forgets a token or changes a settled signal. */
  lemma StepKeepsSettled(c: CancellationContext, e: Event, t: TokenId)
    requires t < |c.signals| && c.signals[t].Settled?
    ensures t < |Step(c, e).signals| && Step(c, e).signals[t] == c.signals[t]
  {
  }

  /** Signals are one-shot over whole runs: once settled, a signal keeps its
      value whatever happens afterwards. */
  lemma {:induction false} SettledStaysSettled(c: CancellationContext, es: seq<Event>, t: TokenId)
    requires t < |c.signals| && c.signals[t].Settled?
    ensures t < |Run(c, es).signals| && Run(c, es).signals[t] == c.signals[t]
    decreases |es|
  {
    if es != [] {
      StepKeepsSettled(c, es[0], t);
      SettledStaysSettled(Step(c, es[0]), es[1..], t);
    }
  }

  /** A signal that is pending (or not yet minted) before an event and settled
      after it was settled by that event calling its terminator. */
  lemma StepSettlesOnlyFired(c: CancellationContext, e: Event, t: TokenId)
    requires t < |Step(c, e).signals| && Step(c, e).signals[t].Settled?
    requires t < |c.signals| ==> c.signals[t].Pending?
    ensures Fires(c, e, t)
  {
  }

  /** Running a prefix one event longer is one step followed by the shorter
      prefix of the rest. */
  lemma RunPrefixStep(c: CancellationContext, es: seq<Event>, k: nat)
    requires k < |es|
    ensures Run(c, es[..k + 1]) == Run(Step(c, es[0]), es[1..][..k])
  {
    var p := es[..k + 1];
    assert p[0] == es[0] && p[1..] == es[1..][..k];
  }

  /** A signal settles only through `cancel` or `cancelAll`: if a signal is
      settled at the end of a run and was pending (or not yet minted) at its
      start, some event of the run called its terminator. Launching and
      fulfilment never settle a signal. */
  lemma {:induction false} SettlesOnlyWhenFired(c: CancellationContext, es: seq<Event>, t: TokenId)
    requires t < |Run(c, es).signals| && Run(c, es).signals[t].Settled?
    requires t < |c.signals| ==> c.signals[t].Pending?
    ensures exists k :: 0 <= k < |es| && Fires(Run(c, es[..k]), es[k], t)
    decreases |es|
  {
    if es != [] {
      var c1 := Step(c, es[0]);
      assert Run(c, es[..0]) == c by { assert es[..0] == []; }
      if !Fires(c, es[0], t) {
        if t < |c1.signals| && c1.signals[t].Settled? {
          StepSettlesOnlyFired(c, es[0], t);
        }
        var k' :| 0 <= k' < |es[1..]| && Fires(Run(c1, es[1..][..k']), es[1..][k'], t) by {
          SettlesOnlyWhenFired(c1, es[1..], t);
        }
        RunPrefixStep(c, es, k');
        assert Fires(Run(c, es[..k' + 1]), es[k' + 1], t);
      }
    }
  }

  /** Event `e` in state `c` can take the entry of `h` away or replace it:
      the fulfilment of `h`, or a launch whose factory returns `h` again. */
  ghost predicate Unbinds(c: CancellationContext, e: Event, h: HandleId) {
    || (e.Fulfilled? && e.h == h)
    || (e.Launch? && e.fn(|c.signals|).Returned? && e.fn(|c.signals|).handle == h)
  }

  /** Membership lasts until settlement: an entry stays, with the same
      terminator, through every event that neither fulfils its handle nor
      registers the same handle again. */
  lemma {:induction false} StaysRegistered(c: CancellationContext, es: seq<Event>, h: HandleId)
    requires h in c.cancellers
    requires forall k :: 0 <= k < |es| ==> !Unbinds(Run(c, es[..k]), es[k], h)
    ensures h in Run(c, es).cancellers && Run(c, es).cancellers[h] == c.cancellers[h]
    decreases |es|
  {
    if es != [] {
      var c1 := Step(c, es[0]);
      assert Run(c, es[..0]) == c by { assert es[..0] == []; }
      assert !Unbinds(c, es[0], h);
      forall k | 0 <= k < |es[1..]|
        ensures !Unbinds(Run(c1, es[1..][..k]), es[1..][k], h)
      {
        RunPrefixStep(c, es, k);
        assert !Unbinds(Run(c, es[..k + 1]), es[k + 1], h);
      }
      StaysRegistered(c1, es[1..], h);
    }
  }

  /** `cancel` works at any point before settlement: after a launch and any
      run that neither fulfils the handle nor registers it again, cancelling
      the handle succeeds and leaves the signal its factory was handed
      settled to `undefined`. */
  lemma CancelLaterSettlesLaunched(c: CancellationContext, fn: TokenId -> FactoryOutcome, es: seq<Event>)
    requires Valid(c)
    requires fn(|c.signals|).Returned?
    requires forall k :: 0 <= k < |es| ==>
      !Unbinds(Run(Cancellable(c, fn).0, es[..k]), es[k], fn(|c.signals|).handle)
    ensures var c2 := Run(Cancellable(c, fn).0, es);
            var r := Cancel(c2, fn(|c.signals|).handle);
            r.1 == Pass && |c.signals| < |r.0.signals| && r.0.signals[|c.signals|] == Settled(Undefined)
  {
    var c1 := Cancellable(c, fn).0;
    var h := fn(|c.signals|).handle;
    CancellablePreservesValid(c, fn);
    StaysRegistered(c1, es, h);
    RunPreservesValid(c1, es);
  }

  /** A handle stays registered when it rejects: only fulfilment removes it,
      so it can still be cancelled afterwards. */
  lemma RejectedStaysRegistered(c: CancellationContext, h: HandleId)
    requires h in c.cancellers
    ensures var c1 := Run(c, [Rejected(h)]);
            h in c1.cancellers && c1.cancellers[h] == c.cancellers[h]
            && Cancel(c1, h).1 == Pass
  {
  }

  /** A handle that fulfils is gone from the registry, and cancelling it then
      throws. */
  lemma FulfilledIsRemoved(c: CancellationContext, h: HandleId)
    ensures var c1 := Run(c, [Fulfilled(h)]);
            h !in c1.cancellers && Cancel(c1, h).1 == Fail(NotAFunction)
  {
  }
}

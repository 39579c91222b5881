/**
 The cancellation registry of `CancellationContext` in index.js.

 The registry maps an in-flight handle to the terminator of the token minted
 for it. Handles are compared by identity, so they are modelled as ids; a
 terminator is the resolver of a token, so it is modelled as the token's id.
 Asynchronous delivery is abstracted away: the fulfilment of a handle is an
 event of its own (see module Trace).
 */
module Cancellation {
  import opened Wrappers
  import opened Token

  /** Identity of an in-flight handle (the value the factory returned). */
  type HandleId = nat

  /** The value a signal settles to. Terminators are always called with no
      argument, i.e. with `undefined`; `Other` stands for any other value a
      resolver could be given. */
  datatype JsValue = Undefined | Other(id: nat)

  /** Exceptions the registry's operations can throw. */
  datatype Error =
    | NotAFunction   // `cancel` of an unregistered handle: the map lookup yields undefined, which is then called
    | NotThenable    // `context.then(...)` threw after registration: no callable `then`, or `then` itself threw
    | FactoryThrew   // the factory itself threw; the exception propagates out of `cancellable`

  /** What the caller's factory does when handed a signal: return a handle
      or throw. `thenable` holds when `context.then(...)` on the returned
      handle attaches the fulfilment reaction and returns normally; it is
      false when that call throws, because `then` is missing, is not
      callable, or throws itself. */
  datatype FactoryOutcome = Returned(handle: HandleId, thenable: bool) | Threw

  /** The registry: handle -> token, plus the signals of every token minted. */
  datatype CancellationContext = CancellationContext(
    cancellers: map<HandleId, TokenId>,
    signals: seq<Signal<JsValue>>)

  /** Every registered terminator belongs to a minted token. */
  ghost predicate Wired(c: CancellationContext) {
    forall h :: h in c.cancellers ==> c.cancellers[h] < |c.signals|
  }

  /** Every settled signal carries `undefined`. */
  ghost predicate OnlyUndefined(c: CancellationContext) {
    forall i :: 0 <= i < |c.signals| && c.signals[i].Settled? ==> c.signals[i].value == Undefined
  }

  /** No two registered handles share a terminator. */
  ghost predicate Injective(c: CancellationContext) {
    forall g, h :: g in c.cancellers && h in c.cancellers && g != h ==> c.cancellers[g] != c.cancellers[h]
  }

  ghost predicate Valid(c: CancellationContext) {
    Wired(c) && OnlyUndefined(c) && Injective(c)
  }

  /** `m2` is `m` with `h` bound to `t`, every other entry untouched. */
  ghost predicate UpdatedAt(m: map<HandleId, TokenId>, m2: map<HandleId, TokenId>, h: HandleId, t: TokenId) {
    && h in m2 && m2[h] == t
    && (forall k :: k != h ==> (k in m <==> k in m2))
    && (forall k :: k != h && k in m ==> m2[k] == m[k])
  }

  /** `m2` is `m` without `h`, every other entry untouched. */
  ghost predicate RemovedAt(m: map<HandleId, TokenId>, m2: map<HandleId, TokenId>, h: HandleId) {
    && h !in m2
    && (forall k :: k != h ==> (k in m <==> k in m2))
    && (forall k :: k != h && k in m ==> m2[k] == m[k])
  }

  /** `constructor`: a new context has no registered handle and no token. */
  function New(): (c: CancellationContext)
    ensures |c.cancellers| == 0 && |c.signals| == 0
    ensures Valid(c)
  {
    CancellationContext(map[], [])
  }

  /** `setContext`: a map update that overwrites any entry for `h`. */
  function SetContext(c: CancellationContext, h: HandleId, t: TokenId): (r: CancellationContext)
    ensures UpdatedAt(c.cancellers, r.cancellers, h, t)
    ensures r.signals == c.signals
  {
    CancellationContext(c.cancellers[h := t], c.signals)
  }

  /** `deleteContext`: removes the entry for `h`, if any. */
  function DeleteContext(c: CancellationContext, h: HandleId): (r: CancellationContext)
    ensures RemovedAt(c.cancellers, r.cancellers, h)
    ensures h !in c.cancellers ==> r == c
    ensures r.signals == c.signals
  {
    CancellationContext(c.cancellers - {h}, c.signals)
  }

  /** The reaction `cancellable` attaches to a handle: when the handle fulfils,
      its entry is deleted. The signal is not touched. */
  function OnFulfilled(c: CancellationContext, h: HandleId): (r: CancellationContext)
    ensures RemovedAt(c.cancellers, r.cancellers, h)
    ensures r.signals == c.signals
  {
    DeleteContext(c, h)
  }

  /** `cancellable(fn)`: mints a token, hands its signal to `fn`, registers the
      returned handle with the token's terminator and returns the handle.
      The removal on fulfilment is the separate event `OnFulfilled`. */
  function Cancellable(c: CancellationContext, fn: TokenId -> FactoryOutcome): (r: (CancellationContext, Result<HandleId, Error>))
    // a fresh pending signal is minted, and no existing signal changes
    ensures |r.0.signals| == |c.signals| + 1
    ensures r.0.signals[..|c.signals|] == c.signals
    ensures r.0.signals[|c.signals|] == Pending
    // the factory throws: nothing is registered and the exception propagates
    ensures fn(|c.signals|).Threw? ==> r.0.cancellers == c.cancellers && r.1 == Failure(FactoryThrew)
    // the factory returns h: h now maps to the token whose signal the factory saw
    ensures fn(|c.signals|).Returned? ==>
      UpdatedAt(c.cancellers, r.0.cancellers, fn(|c.signals|).handle, |c.signals|)
    // the same handle is returned exactly when `context.then(...)` attaches the reaction and returns normally
    ensures fn(|c.signals|).Returned? && fn(|c.signals|).thenable ==> r.1 == Success(fn(|c.signals|).handle)
    ensures fn(|c.signals|).Returned? && !fn(|c.signals|).thenable ==> r.1 == Failure(NotThenable)
  {
    var (sigs, t) := Mint(c.signals);
    match fn(t)
    case Threw => (CancellationContext(c.cancellers, sigs), Failure(FactoryThrew))
    case Returned(h, thenable) =>
      (SetContext(CancellationContext(c.cancellers, sigs), h, t),
       if thenable then Success(h) else Failure(NotThenable))
  }

  /** `cancel(h)`: calls the terminator registered for `h`. */
  function Cancel(c: CancellationContext, h: HandleId): (r: (CancellationContext, Outcome<Error>))
    ensures r.0.cancellers == c.cancellers
    ensures r.1.Fail? <==> h !in c.cancellers
    ensures r.1.Fail? ==> r.1.error == NotAFunction && r.0 == c
    ensures |r.0.signals| == |c.signals|
    ensures h in c.cancellers && c.cancellers[h] < |c.signals| ==> r.0.signals[c.cancellers[h]].Settled?
    ensures h in c.cancellers && c.cancellers[h] < |c.signals| && c.signals[c.cancellers[h]].Pending? ==>
      r.0.signals[c.cancellers[h]] == Settled(Undefined)
    ensures forall i :: 0 <= i < |c.signals| && c.signals[i].Settled? ==> r.0.signals[i] == c.signals[i]
    ensures forall i :: 0 <= i < |c.signals| && (h !in c.cancellers || i != c.cancellers[h]) ==>
      r.0.signals[i] == c.signals[i]
  {
    if h in c.cancellers then
      (CancellationContext(c.cancellers, Resolve(c.signals, c.cancellers[h], Undefined)), Pass)
    else
      (c, Fail(NotAFunction))
  }

  /** `cancelAll()`: calls every registered terminator. */
  function CancelAll(c: CancellationContext): (r: CancellationContext)
    ensures r.cancellers == c.cancellers
    ensures |r.signals| == |c.signals|
    ensures forall h :: h in c.cancellers && c.cancellers[h] < |c.signals| ==> r.signals[c.cancellers[h]].Settled?
    ensures forall h :: h in c.cancellers && c.cancellers[h] < |c.signals| && c.signals[c.cancellers[h]].Pending? ==>
      r.signals[c.cancellers[h]] == Settled(Undefined)
    ensures forall i :: 0 <= i < |c.signals| && c.signals[i].Settled? ==> r.signals[i] == c.signals[i]
    ensures forall i :: 0 <= i < |c.signals| && i !in c.cancellers.Values ==> r.signals[i] == c.signals[i]
  {
    CancellationContext(c.cancellers, ResolveAll(c.signals, c.cancellers.Values, Undefined))
  }

  /** Tokens registered for the handles in `hs`. */
  function TokensOf(m: map<HandleId, TokenId>, hs: set<HandleId>): set<TokenId> {
    set h | h in hs && h in m :: m[h]
  }

  /** `cancelAll` as the source runs it: `forEach` over the entries, calling
      each terminator in turn. Whatever order the entries are visited in, the
      result is `CancelAll`. */
  method CancelAllForEach(c: CancellationContext) returns (r: CancellationContext)
    ensures r == CancelAll(c)
  {
    var rest := c.cancellers.Keys;
    var sigs := c.signals;
    ghost var done: set<HandleId> := {};
    while rest != {}
      invariant rest !! done && rest + done == c.cancellers.Keys
      invariant sigs == ResolveAll(c.signals, TokensOf(c.cancellers, done), Undefined)
      decreases rest
    {
      var h :| h in rest;
      ResolveAllStep(c.signals, TokensOf(c.cancellers, done), c.cancellers[h], Undefined);
      sigs := Resolve(sigs, c.cancellers[h], Undefined);
      assert TokensOf(c.cancellers, done + {h}) == TokensOf(c.cancellers, done) + {c.cancellers[h]};
      rest := rest - {h};
      done := done + {h};
    }
    assert TokensOf(c.cancellers, done) == c.cancellers.Values;
    r := CancellationContext(c.cancellers, sigs);
  }
}

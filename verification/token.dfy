/**
 A cancellation token is a promise created together with its resolver.
 The promise is the signal handed to the computation; the resolver is the
 terminator kept by the registry. A promise settles once: the first call of
 its resolver fixes the value and every later call does nothing.

 Tokens are numbered in order of creation, so the signals of all tokens minted
 so far are a sequence indexed by token id.
 */
module Token {

  type TokenId = nat

  /** State of one signal: not yet settled, or settled to a value. */
  datatype Signal<V> = Pending | Settled(value: V)

  /** Creates a fresh resolver/promise pair: the new token is pending and no
      existing signal changes. */
  function Mint<V>(sigs: seq<Signal<V>>): (r: (seq<Signal<V>>, TokenId))
    ensures r.1 >= |sigs|
    ensures r.1 < |r.0| && r.0[r.1] == Pending
    ensures |r.0| == |sigs| + 1 && r.0[..|sigs|] == sigs
  {
    (sigs + [Pending], |sigs|)
  }

  /** Calls the resolver of token `t` with `v`. */
  function Resolve<V>(sigs: seq<Signal<V>>, t: TokenId, v: V): (r: seq<Signal<V>>)
    ensures |r| == |sigs|
    ensures t < |sigs| ==> r[t].Settled?
    ensures t < |sigs| && sigs[t].Pending? ==> r[t] == Settled(v)
    ensures forall i :: 0 <= i < |sigs| && sigs[i].Settled? ==> r[i] == sigs[i]
    ensures forall i :: 0 <= i < |sigs| && i != t ==> r[i] == sigs[i]
  {
    if t < |sigs| && sigs[t].Pending? then sigs[t := Settled(v)] else sigs
  }

  /** Calls the resolver of every token in `ts` with `v`, in no particular order. */
  function ResolveAll<V>(sigs: seq<Signal<V>>, ts: set<TokenId>, v: V): (r: seq<Signal<V>>)
    ensures |r| == |sigs|
    ensures forall t :: t in ts && t < |sigs| ==> r[t].Settled?
    ensures forall i :: 0 <= i < |sigs| && i in ts && sigs[i].Pending? ==> r[i] == Settled(v)
    ensures forall i :: 0 <= i < |sigs| && sigs[i].Settled? ==> r[i] == sigs[i]
    ensures forall i :: 0 <= i < |sigs| && i !in ts ==> r[i] == sigs[i]
  {
    seq(|sigs|, i requires 0 <= i < |sigs| =>
      if i in ts && sigs[i].Pending? then Settled(v) else sigs[i])
  }

  /** One-shot: once a resolver has been called, calling it again, with any
      value, leaves every signal as it was. */
  lemma ResolveOneShot<V>(sigs: seq<Signal<V>>, t: TokenId, v: V, w: V)
    ensures Resolve(Resolve(sigs, t, v), t, w) == Resolve(sigs, t, v)
  {
  }

  /** Resolving one more token extends the set resolved at once; this is what
      makes the order in which terminators are called irrelevant. */
  lemma ResolveAllStep<V>(sigs: seq<Signal<V>>, ts: set<TokenId>, t: TokenId, v: V)
    ensures Resolve(ResolveAll(sigs, ts, v), t, v) == ResolveAll(sigs, ts + {t}, v)
  {
  }

  /** Resolving a set of tokens twice is the same as resolving it once. */
  lemma ResolveAllIdempotent<V>(sigs: seq<Signal<V>>, ts: set<TokenId>, v: V)
    ensures ResolveAll(ResolveAll(sigs, ts, v), ts, v) == ResolveAll(sigs, ts, v)
  {
  }
}

/**
  The per-event listener registry and what one notification delivers.
*/
module Listeners {
  import opened Types

  /** Callbacks subscribed to each event kind, in subscription order. */
  type Registry = map<Event, seq<CallbackId>>

  /** Every event kind has a (possibly empty) list. */
  ghost predicate Complete(r: Registry) {
    forall e: Event :: e in r
  }

  /** The registry as the application starts: every list empty. */
  function EmptyRegistry(): (r: Registry)
    ensures Complete(r)
    ensures forall e: Event :: r[e] == []
  {
    var r := map[Play := [], Pause := [], TrackChange := [], TimeUpdate := [],
                  QueueUpdate := [], VolumeChange := [], End := []];
    assert Complete(r) by {
      forall e: Event ensures e in r {
        assert e == Play || e == Pause || e == TrackChange || e == TimeUpdate
            || e == QueueUpdate || e == VolumeChange || e == End;
      }
    }
    r
  }

  /** `callbacks.filter(c => c !== cb)`: the other callbacks, order kept. */
  function Without(callbacks: seq<CallbackId>, cb: CallbackId): (r: seq<CallbackId>)
    ensures cb !in r
    ensures forall x :: x in r <==> x in callbacks && x != cb
    ensures forall x :: x != cb ==> multiset(r)[x] == multiset(callbacks)[x]
    ensures |r| <= |callbacks|
  {
    if callbacks == [] then []
    else
      assert callbacks == [callbacks[0]] + callbacks[1..];
      if callbacks[0] == cb then Without(callbacks[1..], cb)
      else [callbacks[0]] + Without(callbacks[1..], cb)
  }

  /** Filtering distributes over concatenation, so relative order is kept. */
  lemma {:induction false} WithoutConcat(xs: seq<CallbackId>, ys: seq<CallbackId>, cb: CallbackId)
    ensures Without(xs + ys, cb) == Without(xs, cb) + Without(ys, cb)
  {
    if xs == [] {
      assert xs + ys == ys;
    } else {
      assert (xs + ys)[1..] == xs[1..] + ys;
      WithoutConcat(xs[1..], ys, cb);
    }
  }

  /** Removing a callback that is not subscribed changes nothing. */
  lemma {:induction false} WithoutAbsent(xs: seq<CallbackId>, cb: CallbackId)
    requires cb !in xs
    ensures Without(xs, cb) == xs
  {
    if xs != [] {
      WithoutAbsent(xs[1..], cb);
      assert [xs[0]] + xs[1..] == xs;
    }
  }

  /** Removing twice is removing once. */
  lemma {:induction false} WithoutIdempotent(xs: seq<CallbackId>, cb: CallbackId)
    ensures Without(Without(xs, cb), cb) == Without(xs, cb)
  {
    WithoutAbsent(Without(xs, cb), cb);
  }

  /** Removing a fresh callback right after adding it restores the list. */
  lemma RemoveUndoesAdd(xs: seq<CallbackId>, cb: CallbackId)
    requires cb !in xs
    ensures Without(xs + [cb], cb) == xs
  {
    WithoutConcat(xs, [cb], cb);
    WithoutAbsent(xs, cb);
    assert Without([cb], cb) == [];
  }

  /** Removing one callback leaves another's subscriptions untouched. */
  lemma {:induction false} WithoutOtherCommutes(xs: seq<CallbackId>, a: CallbackId, b: CallbackId)
    ensures Without(Without(xs, a), b) == Without(Without(xs, b), a)
  {
    if xs != [] {
      WithoutOtherCommutes(xs[1..], a, b);
    }
  }

  /** One callback invocation: which event, which callback, which snapshot it received. */
  datatype Invocation = Invocation(event: Event, callback: CallbackId, snapshot: PlayerState)

  /** The invocations one notification of `e` makes: each callback once, in list order. */
  function Fanout(e: Event, callbacks: seq<CallbackId>, s: PlayerState): seq<Invocation> {
    seq(|callbacks|, k requires 0 <= k < |callbacks| => Invocation(e, callbacks[k], s))
  }
}

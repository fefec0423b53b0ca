/** `throttle(delay, fn)` of `src/hooks/helpers.ts`: a wrapper that forwards
    a call to `fn` only when at least `delay` milliseconds have passed since
    the last forwarded call. The clock reading `new Date().getTime()` is the
    parameter `now` of each call. */
module Throttle {
  import opened Wrappers

  /** The instant of every forwarded call keeps a distance of at least
      `delay` from the one before it; the first is measured from 0. */
  ghost predicate Spaced(times: seq<real>, delay: real)
  {
    && (|times| > 0 ==> times[0] >= delay)
    && forall i :: 0 < i < |times| ==> times[i] - times[i - 1] >= delay
  }

  /** With a non-negative delay the spacing holds between ANY two forwarded
      calls, not only neighbours. */
  lemma {:induction false} SpacedPairs(times: seq<real>, delay: real, i: nat, j: nat)
    requires Spaced(times, delay) && delay >= 0.0 && i < j < |times|
    ensures times[j] - times[i] >= delay
    decreases j - i
  {
    if j > i + 1 {
      SpacedPairs(times, delay, i, j - 1);
      assert times[j] - times[j - 1] >= delay;
    } else {
      assert times[j] - times[j - 1] >= delay;
    }
  }

  /** One throttled function: its own `lastCall`, starting at 0. */
  class Throttled<A, B> {
    const delay: real
    const fn: A -> B
    var lastCall: real
    /** The clock readings of the calls that were forwarded, in order. */
    ghost var forwarded: seq<real>

    ghost predicate Valid()
      reads this
    {
      && lastCall == (if forwarded == [] then 0.0 else forwarded[|forwarded| - 1])
      && Spaced(forwarded, delay)
    }

    constructor(delay: real, fn: A -> B)
      ensures Valid() && this.delay == delay && this.fn == fn
      ensures lastCall == 0.0 && forwarded == []
    {
      this.delay := delay;
      this.fn := fn;
      lastCall := 0.0;
      forwarded := [];
    }

    /** A call at clock reading `now`: forwarded, with `fn`'s result, iff
        `now - lastCall >= delay`; a dropped call returns `undefined`
        (`None`) and leaves `lastCall` where it was. */
    method Call(now: real, args: A) returns (r: Option<B>)
      requires Valid()
      modifies this
      ensures Valid()
      ensures r.Some? <==> now - old(lastCall) >= delay
      ensures r.Some? ==> r.value == fn(args) && lastCall == now && forwarded == old(forwarded) + [now]
      ensures r.None? ==> lastCall == old(lastCall) && forwarded == old(forwarded)
    {
      if now - lastCall < delay {
        return None;
      }
      lastCall := now;
      forwarded := forwarded + [now];
      return Some(fn(args));
    }
  }
}

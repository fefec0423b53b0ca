/** `useAnimationFrame` of `src/hooks/animation.ts`: a render loop that calls
    back once per animation frame with the frame time and a ping-pong
    parity, pauses after `MAX_IDLE_TIME` frames without user input or while
    the canvas is scrolled out of view, and resumes on input or when the
    canvas comes back. A pending `requestAnimationFrame` is the flag
    `requested`; cancelling it clears the flag. */
module Animation {

  /** `MAX_IDLE_TIME` of `lib/gl/settings.ts`, counted in frames. */
  const MAX_IDLE_TIME: int := 1000

  /** The loop's refs: `idleRef`, `idleTimerRef`, `pingPongRef` and whether a
      frame request is pending. */
  datatype Loop = Loop(idle: bool, idleTimer: int, pingPong: int, requested: bool)

  /** The refs right after mounting with motion allowed: one frame requested. */
  const Mounted := Loop(false, 0, 0, true)

  /** One `callback(time, pingPong)`. */
  datatype Callback = Callback(time: real, pingPong: int)

  /** `animate` calls back on this frame: the loop is running and the idle
      timer has not passed its limit. */
  predicate Fires(l: Loop)
  {
    !l.idle && l.idleTimer <= MAX_IDLE_TIME
  }

  /** The refs after one `animate`. */
  function Tick(l: Loop): (r: Loop)
    ensures l.idle ==> r == l
    ensures !l.idle && l.idleTimer > MAX_IDLE_TIME ==> r == l.(idle := true, requested := false)
    ensures Fires(l) ==> r.idleTimer == l.idleTimer + 1 && r.requested && !r.idle
    ensures Fires(l) && (l.pingPong == 0 || l.pingPong == 1) ==> r.pingPong == 1 - l.pingPong
  {
    if l.idle then l
    else if l.idleTimer > MAX_IDLE_TIME then l.(idle := true, requested := false)
    else
      var flipped := if l.pingPong - 1 < 0 then 1 - l.pingPong else l.pingPong - 1;
      l.(idleTimer := l.idleTimer + 1, pingPong := flipped, requested := true)
  }

  /** The refs after `n` frames. */
  function Run(l: Loop, n: nat): Loop
    decreases n
  {
    if n == 0 then l else Run(Tick(l), n - 1)
  }

  /** How many of those `n` frames called back. */
  function Callbacks(l: Loop, n: nat): nat
    decreases n
  {
    if n == 0 then 0 else (if Fires(l) then 1 else 0) + Callbacks(Tick(l), n - 1)
  }

  /** A running loop whose idle timer is `t` (at most one past the limit)
      calls back on exactly the next `MAX_IDLE_TIME + 1 - t` frames and then
      goes idle; from a reset timer that is 1001 callbacks. */
  lemma {:induction false} CallbacksBeforeIdle(l: Loop, n: nat)
    requires !l.idle && 0 <= l.idleTimer <= MAX_IDLE_TIME + 1
    ensures var budget := MAX_IDLE_TIME + 1 - l.idleTimer;
      && Callbacks(l, n) == (if n <= budget then n else budget)
      && (Run(l, n).idle <==> n > budget)
    decreases n
  {
    if n > 0 {
      if Fires(l) {
        CallbacksBeforeIdle(Tick(l), n - 1);
      } else {
        IdleStays(Tick(l), n - 1);
      }
    }
  }

  /** An idle loop stays idle and calls back no more. */
  lemma {:induction false} IdleStays(l: Loop, n: nat)
    requires l.idle
    ensures Run(l, n) == l && Callbacks(l, n) == 0
    decreases n
  {
    if n > 0 {
      IdleStays(Tick(l), n - 1);
    }
  }

  /** The parity flips on every frame that calls back and stays in {0, 1}. */
  lemma {:induction false} ParityAlternates(l: Loop, n: nat)
    requires l.pingPong == 0 || l.pingPong == 1
    ensures Run(l, n).pingPong == (l.pingPong + Callbacks(l, n)) % 2
    decreases n
  {
    if n > 0 {
      ParityAlternates(Tick(l), n - 1);
    }
  }

  /** `getBoundingClientRect()` of the canvas overlaps the window vertically. */
  predicate InView(y: real, height: real, innerHeight: real)
  {
    y < innerHeight && y + height > 0.0
  }

  /** The hook's refs and the callbacks it has made. Under reduced motion
      there is no loop, only one timeout that calls back with (0, 0). */
  class AnimationFrame {
    const allowMotion: bool
    var idle: bool
    var idleTimer: int
    var pingPong: int
    var requested: bool
    var previousTime: real
    /** The reduced-motion timeout has not fired yet. */
    var timeoutPending: bool
    ghost var calls: seq<Callback>

    function State(): Loop
      reads this
    {
      Loop(idle, idleTimer, pingPong, requested)
    }

    /** The loop never has a request pending while idle, its parity is that
        of the number of callbacks so far, and each callback saw the parity
        of its position: 0, 1, 0, 1, ... */
    ghost predicate Valid()
      reads this
    {
      && (idle ==> !requested)
      && 0 <= idleTimer
      && (allowMotion ==> !timeoutPending && pingPong == |calls| % 2)
      && (!allowMotion ==> !requested && |calls| + (if timeoutPending then 1 else 0) == 1)
      && forall i :: 0 <= i < |calls| ==> calls[i].pingPong == i % 2
    }

    /** Mounting: with motion allowed the first frame is requested; under
        reduced motion a 1000 ms timeout is set instead. */
    constructor(allowMotion: bool)
      ensures Valid() && this.allowMotion == allowMotion && calls == []
      ensures allowMotion ==> State() == Mounted && !timeoutPending
      ensures !allowMotion ==> timeoutPending && !requested
    {
      this.allowMotion := allowMotion;
      idle := false;
      idleTimer := 0;
      pingPong := 0;
      requested := allowMotion;
      previousTime := 0.0;
      timeoutPending := !allowMotion;
      calls := [];
    }

    /** The reduced-motion timeout fires: `callback(0, 0)`, once. */
    method Timeout()
      requires Valid() && timeoutPending
      modifies this
      ensures Valid() && !timeoutPending && calls == old(calls) + [Callback(0.0, 0)]
      ensures State() == old(State())
    {
      timeoutPending := false;
      calls := calls + [Callback(0.0, 0)];
    }

    /** `animate(time)`: a frame arrives. The `previousTimeRef !== undefined`
        guard always holds, since the ref starts at 0. */
    method Animate(time: real)
      requires Valid() && allowMotion
      modifies this
      ensures Valid() && State() == Tick(old(State()))
      ensures Fires(old(State())) ==> calls == old(calls) + [Callback(time, old(pingPong))] && previousTime == time
      ensures !Fires(old(State())) ==> calls == old(calls) && previousTime == old(previousTime)
    {
      if idle {
        return;
      }
      if idleTimer > MAX_IDLE_TIME {
        requested := false;
        idle := true;
        return;
      }
      idleTimer := idleTimer + 1;
      calls := calls + [Callback(time, pingPong)];
      previousTime := time;
      pingPong := if pingPong - 1 < 0 then 1 - pingPong else pingPong - 1;
      requested := true;
    }

    /** `handleScroll`: leaving the view pauses a running loop; coming back
        resets the idle timer and resumes an idle one. Without a canvas
        nothing happens. */
    method HandleScroll(hasCanvas: bool, y: real, height: real, innerHeight: real)
      requires Valid() && allowMotion
      modifies this
      ensures Valid() && calls == old(calls) && pingPong == old(pingPong)
      ensures var inView := InView(y, height, innerHeight);
        if hasCanvas && !inView && !old(idle) then State() == old(State()).(idle := true, requested := false)
        else if hasCanvas && inView && old(idle) then State() == old(State()).(idle := false, idleTimer := 0, requested := true)
        else State() == old(State())
    {
      if !hasCanvas {
        return;
      }
      var inView := InView(y, height, innerHeight);
      if !inView && !idle {
        requested := false;
        idle := true;
      } else if inView && idle {
        idleTimer := 0;
        requested := true;
        idle := false;
      }
    }

    /** `resetIdleTimer`, on mouse, touch or key input: an idle loop resumes
        with a reset timer, whether or not the canvas is in view. */
    method ResetIdleTimer()
      requires Valid() && allowMotion
      modifies this
      ensures Valid() && calls == old(calls)
      ensures old(idle) ==> State() == old(State()).(idle := false, idleTimer := 0, requested := true)
      ensures !old(idle) ==> State() == old(State())
    {
      if !idle {
        return;
      }
      idleTimer := 0;
      requested := true;
      idle := false;
    }

    /** Unmounting cancels the pending frame request. */
    method Unmount()
      requires Valid()
      modifies this
      ensures Valid() && !requested && calls == old(calls) && idle == old(idle) && idleTimer == old(idleTimer)
      ensures previousTime == old(previousTime) && pingPong == old(pingPong)
    {
      requested := false;
    }
  }
}

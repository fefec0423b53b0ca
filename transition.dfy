/** `src/utils/transition.ts`: the slide transition of the texture carousel.
    While a transition runs, every frame either advances its time and eases
    the progress, or, once the time reaches `DURATION - 0.05`, stops it,
    moves the slide index by the direction and, going forward, rotates the
    texture list and rebinds its first two textures. Going backward, the
    rotation happens on the first frame instead. Times and progress are
    reals here, not doubles. */
module Transition {
  import opened Wrappers
  import opened WebGLState
  import opened WebGL
  import opened Samplers

  const SPEED: real := 0.001
  const DURATION: real := 0.1

  // ---------------------------------------------------------------------------
  // easeOutCubic
  // ---------------------------------------------------------------------------

  /** `easeOutCubic(time, initial, final, duration)`: from `initial` at time
      0 to `initial + final` at `duration`, decelerating. */
  function EaseOutCubic(time: real, initial: real, final: real, duration: real): real
    requires duration != 0.0
  {
    var t := time / duration - 1.0;
    final * (Power(t, 3) + 1.0) + initial
  }

  /** `u` to the `n`-th power. */
  function Power(u: real, n: nat): real
  {
    if n == 0 then 1.0 else u * Power(u, n - 1)
  }

  lemma PowerThree(u: real)
    ensures Power(u, 3) == u * u * u
  {
    calc {
      Power(u, 3);
      u * Power(u, 2);
      u * (u * Power(u, 1));
      u * (u * (u * Power(u, 0)));
    }
  }

  /** The end points: `initial` at 0 and `initial + final` at `duration`. */
  lemma EaseEnds(initial: real, final: real, duration: real)
    requires duration != 0.0
    ensures EaseOutCubic(0.0, initial, final, duration) == initial
    ensures EaseOutCubic(duration, initial, final, duration) == initial + final
  {
    assert 0.0 / duration == 0.0;
    assert duration / duration == 1.0;
    PowerThree(-1.0);
    PowerThree(0.0);
  }

  lemma MulNonNegative(a: real, b: real)
    requires a >= 0.0 && b >= 0.0
    ensures a * b >= 0.0
  {
  }

  lemma Square(x: real)
    ensures x * x >= 0.0
  {
    if x >= 0.0 {
      MulNonNegative(x, x);
    } else {
      MulNonNegative(-x, -x);
    }
  }

  /** `u -> u^3` is monotone. */
  lemma CubeMonotone(u: real, v: real)
    requires u <= v
    ensures u * u * u <= v * v * v
  {
    var d := v - u;
    assert v * v * v - u * u * u == d * (u * u + u * v + v * v);
    assert u * u + u * v + v * v == (u + v / 2.0) * (u + v / 2.0) + 3.0 * v * v / 4.0;
    Square(u + v / 2.0);
    Square(v);
    MulNonNegative(d, u * u + u * v + v * v);
  }

  /** `u^3 = -1` only at `u = -1`. */
  lemma CubeMinusOne(u: real)
    requires u * u * u + 1.0 == 0.0
    ensures u == -1.0
  {
    assert (u + 1.0) * (u * u - u + 1.0) == u * u * u + 1.0;
    assert u * u - u + 1.0 == (u - 0.5) * (u - 0.5) + 0.75;
  }

  /** Over `[0, duration]` the unit easing stays in `[0, 1]`, never
      decreases, and is 0 only at time 0. */
  lemma EaseUnit(t1: real, t2: real, duration: real)
    requires duration > 0.0 && 0.0 <= t1 <= t2 <= duration
    ensures 0.0 <= EaseOutCubic(t1, 0.0, 1.0, duration) <= EaseOutCubic(t2, 0.0, 1.0, duration) <= 1.0
    ensures EaseOutCubic(t1, 0.0, 1.0, duration) == 0.0 <==> t1 == 0.0
  {
    var u1 := t1 / duration - 1.0;
    var u2 := t2 / duration - 1.0;
    PowerThree(u1);
    PowerThree(u2);
    assert t1 / duration <= t2 / duration <= 1.0 by {
      assert t2 / duration * duration == t2;
      assert t1 / duration * duration == t1;
    }
    assert 0.0 <= t1 / duration;
    CubeMonotone(-1.0, u1);
    CubeMonotone(u1, u2);
    CubeMonotone(u2, 0.0);
    if u1 * u1 * u1 + 1.0 == 0.0 {
      CubeMinusOne(u1);
      assert t1 / duration == 0.0;
      assert t1 == t1 / duration * duration;
    }
  }

  // ---------------------------------------------------------------------------
  // rotateArray
  // ---------------------------------------------------------------------------

  /** `rotateArray(array, direction)`: -1 moves the last element to the
      front (`unshift(pop())`), any other direction the first to the back
      (`push(shift())`). On an empty array `pop`/`shift` give `undefined`,
      which is then inserted. */
  function Rotated(a: seq<Option<Handle>>, direction: int): (r: seq<Option<Handle>>)
    ensures |a| > 0 ==> |r| == |a| && multiset(r) == multiset(a)
    ensures |a| == 0 ==> r == [None]
  {
    if |a| == 0 then [None]
    else if direction == -1 then
      assert a == a[..|a| - 1] + [a[|a| - 1]];
      [a[|a| - 1]] + a[..|a| - 1]
    else
      assert a == [a[0]] + a[1..];
      a[1..] + [a[0]]
  }

  /** Position by position: forward, element i comes from i + 1 and the
      first goes last; backward, element i comes from i - 1 and the last
      goes first. */
  lemma RotatedAt(a: seq<Option<Handle>>, direction: int, i: nat)
    requires i < |a|
    ensures direction == -1 ==> Rotated(a, direction)[i] == if i == 0 then a[|a| - 1] else a[i - 1]
    ensures direction != -1 ==> Rotated(a, direction)[i] == if i == |a| - 1 then a[0] else a[i + 1]
  {
  }

  /** A forward rotation undoes a backward one and the other way round. */
  lemma RotateInverse(a: seq<Option<Handle>>)
    requires |a| > 0
    ensures Rotated(Rotated(a, 1), -1) == a
    ensures Rotated(Rotated(a, -1), 1) == a
  {
    var f := Rotated(a, 1);
    assert [f[|f| - 1]] + f[..|f| - 1] == [a[0]] + a[1..];
    assert [a[0]] + a[1..] == a;
    var b := Rotated(a, -1);
    assert b[1..] + [b[0]] == a[..|a| - 1] + [a[|a| - 1]];
    assert a[..|a| - 1] + [a[|a| - 1]] == a;
  }

  // ---------------------------------------------------------------------------
  // The transition as a value
  // ---------------------------------------------------------------------------

  /** The refs `transitionTimeRef`, `slideIndexRef`, `isTransitioningRef`,
      `transitionProgressRef`, `transitionDirectionRef` and `texturesRef`. */
  datatype Slide = Slide(time: real, index: int, transitioning: bool, progress: real, direction: int,
                         textures: seq<Option<Handle>>)

  /** The frame stops the transition. */
  predicate Stops(s: Slide)
  {
    s.transitioning && s.time >= DURATION - 0.05
  }

  /** The progress `animateTransition` computes. */
  function Eased(s: Slide): real
  {
    if s.direction == 1 then EaseOutCubic(s.time, 0.0, 1.0, DURATION)
    else 1.0 - EaseOutCubic(s.time, 0.0, 1.0, DURATION)
  }

  /** The frame rotates the textures (and rebinds the first two): a forward
      stop, or a backward frame whose progress is exactly 1. */
  predicate Rotates(s: Slide)
  {
    s.transitioning &&
    if Stops(s) then s.direction == 1 else s.direction != 1 && Eased(s) == 1.0
  }

  /** `updateTransitionProgress` on the refs. */
  function Step(s: Slide): (r: Slide)
    ensures !s.transitioning ==> r == s
    ensures Stops(s) ==> !r.transitioning && r.index == s.index + s.direction && r.time == 0.0 && r.progress == 0.0
    ensures s.transitioning && !Stops(s) ==> r.transitioning && r.index == s.index && r.time == s.time + SPEED
    ensures r.direction == s.direction
    ensures r.textures == if Rotates(s) then Rotated(s.textures, s.direction) else s.textures
  {
    if !s.transitioning then s
    else if Stops(s) then
      var stopped := s.(transitioning := false, index := s.index + s.direction, progress := 0.0, time := 0.0);
      if s.direction == 1 then stopped.(textures := Rotated(s.textures, s.direction)) else stopped
    else
      var eased := s.(progress := Eased(s), time := s.time + SPEED);
      if s.direction != 1 && Eased(s) == 1.0 then eased.(textures := Rotated(s.textures, s.direction)) else eased
  }

  /** Part way through a transition started from `start` (time 0): same
      slide, and the textures rotated once already iff it runs backward and
      has advanced past time 0. */
  predicate Midway(s: Slide, start: Slide)
  {
    && s.transitioning && s.index == start.index && s.direction == start.direction
    && s.time >= 0.0
    && s.textures == if start.direction == -1 && s.time > 0.0 then Rotated(start.textures, -1) else start.textures
  }

  /** Done with the transition started from `start`: one slide further in
      its direction, the textures rotated exactly once in its direction. */
  predicate Done(s: Slide, start: Slide)
  {
    && !s.transitioning && s.index == start.index + start.direction
    && s.time == 0.0 && s.progress == 0.0
    && s.textures == Rotated(start.textures, start.direction)
  }

  /** Every frame of a transition that moves one slide either way keeps it
      midway or finishes it: the slide moves once and the textures rotate
      exactly once, forward at the stop, backward on the first frame. */
  lemma StepMidway(s: Slide, start: Slide)
    requires start.direction == 1 || start.direction == -1
    requires Midway(s, start)
    ensures Midway(Step(s), start) || Done(Step(s), start)
    ensures Stops(s) <==> Done(Step(s), start)
  {
    if !Stops(s) && s.direction == -1 {
      EasedOne(s);
    }
  }

  /** Before the stop, a backward frame has progress exactly 1 only at
      time 0. */
  lemma EasedOne(s: Slide)
    requires s.direction != 1 && 0.0 <= s.time < DURATION - 0.05
    ensures Eased(s) == 1.0 <==> s.time == 0.0
  {
    var e := EaseOutCubic(s.time, 0.0, 1.0, DURATION);
    assert Eased(s) == 1.0 - e;
    EaseUnit(s.time, s.time, DURATION);
  }

  /** Frames after the start, in exact arithmetic. */
  function Run(s: Slide, n: nat): Slide
    decreases n
  {
    if n == 0 then s else Run(Step(s), n - 1)
  }

  /** In exact arithmetic the transition runs `k` frames at time `k * SPEED`
      while that is below `DURATION - 0.05`. */
  lemma {:induction false} RunMidway(start: Slide, k: nat)
    requires start.direction == 1 || start.direction == -1
    requires start.transitioning && start.time == 0.0
    requires k as real * SPEED <= DURATION - 0.05
    ensures Midway(Run(start, k), start) && Run(start, k).time == k as real * SPEED
  {
    if k > 0 {
      RunMidway(start, k - 1);
      var s := Run(start, k - 1);
      StepMidway(s, start);
      RunStep(start, k - 1);
    }
  }

  lemma {:induction false} RunStep(s: Slide, n: nat)
    ensures Run(s, n + 1) == Step(Run(s, n))
    decreases n
  {
    if n > 0 {
      RunStep(Step(s), n - 1);
    }
  }

  /** In exact arithmetic a transition started at time 0 is done after 51
      frames: 50 that advance the time to 0.05 and one that stops. */
  lemma TransitionCompletes(start: Slide)
    requires start.direction == 1 || start.direction == -1
    requires start.transitioning && start.time == 0.0
    ensures Done(Run(start, 51), start)
  {
    RunMidway(start, 50);
    StepMidway(Run(start, 50), start);
    RunStep(start, 50);
  }

  // ---------------------------------------------------------------------------
  // bindTextures
  // ---------------------------------------------------------------------------

  /** Every position of the list binds its texture. */
  function AllBound(textures: seq<Option<Handle>>): (slots: seq<Slot>)
    ensures |slots| == |textures| && forall i :: 0 <= i < |textures| ==> slots[i] == Bind(textures[i])
  {
    seq(|textures|, i requires 0 <= i < |textures| => Bind(textures[i]))
  }

  /** `texturesRef.current.slice(0, 2)`. */
  function FirstTwo(textures: seq<Option<Handle>>): seq<Option<Handle>>
  {
    if |textures| <= 2 then textures else textures[..2]
  }

  /** `bindTextures`: the i-th texture to unit i and sampler `uDiffuse{i}`,
      for every texture given; unit i then holds it and one sampler call per
      texture is logged. */
  method BindTextures(gl: GL, textures: seq<Option<Handle>>, uniformLocations: map<string, Option<Location>>)
    requires gl.Valid()
    modifies gl
    ensures gl.Valid() && gl.st == BindSlots(old(gl.st), AllBound(textures), uniformLocations)
    ensures forall i :: 0 <= i < |textures| ==> TextureAt(gl.st, i) == textures[i]
    ensures gl.st.uniformCalls == old(gl.st.uniformCalls) + SamplerCalls(AllBound(textures), uniformLocations)
  {
    var i := 0;
    while i < |textures|
      invariant 0 <= i <= |textures| && gl.Valid()
      invariant gl.st == BindSlots(old(gl.st), AllBound(textures)[..i], uniformLocations)
    {
      ghost var slots := AllBound(textures);
      assert slots[..i + 1][..i] == slots[..i];
      BindUnit(gl, i, textures[i], uniformLocations);
      i := i + 1;
    }
    assert AllBound(textures)[..i] == AllBound(textures);
    BindSlotsUnits(old(gl.st), AllBound(textures), uniformLocations);
    BindSlotsFrame(old(gl.st), AllBound(textures), uniformLocations);
  }

  // ---------------------------------------------------------------------------
  // The refs and their updates
  // ---------------------------------------------------------------------------

  /** The transition refs of a carousel, with its GL context and uniform
      table. */
  class Transition {
    const gl: GL
    const uniformLocations: map<string, Option<Location>>
    var transitionTime: real
    var slideIndex: int
    var isTransitioning: bool
    var progress: real
    var direction: int
    var textures: seq<Option<Handle>>

    function State(): Slide
      reads this
    {
      Slide(transitionTime, slideIndex, isTransitioning, progress, direction, textures)
    }

    ghost predicate Valid()
      reads this, gl
    {
      gl.Valid()
    }

    /** The refs' initial values: slide 0, no transition, direction 1. */
    constructor(gl: GL, uniformLocations: map<string, Option<Location>>, textures: seq<Option<Handle>>)
      requires gl.Valid()
      ensures Valid() && this.gl == gl && this.uniformLocations == uniformLocations
      ensures State() == Slide(0.0, 0, false, 0.0, 1, textures)
    {
      this.gl := gl;
      this.uniformLocations := uniformLocations;
      transitionTime := 0.0;
      slideIndex := 0;
      isTransitioning := false;
      progress := 0.0;
      direction := 1;
      this.textures := textures;
    }

    /** `rotateArray(texturesRef.current, direction)`, in place. */
    method RotateTextures(direction: int)
      modifies this
      ensures textures == Rotated(old(textures), direction)
      ensures transitionTime == old(transitionTime) && slideIndex == old(slideIndex)
      ensures isTransitioning == old(isTransitioning) && progress == old(progress) && this.direction == old(this.direction)
    {
      if |textures| == 0 {
        textures := [None];
      } else if direction == -1 {
        var last := textures[|textures| - 1];
        textures := [last] + textures[..|textures| - 1];
      } else {
        var first := textures[0];
        textures := textures[1..] + [first];
      }
    }

    /** `stopTransition`. */
    method StopTransition()
      requires Valid() && isTransitioning && transitionTime >= DURATION - 0.05
      modifies this, gl
      ensures Valid() && State() == Step(old(State()))
      ensures direction == 1 ==> gl.st == BindSlots(old(gl.st), AllBound(FirstTwo(textures)), uniformLocations)
      ensures direction != 1 ==> gl.st == old(gl.st)
    {
      isTransitioning := false;
      slideIndex := slideIndex + direction;
      progress := 0.0;
      transitionTime := 0.0;
      if direction == 1 {
        RotateTextures(direction);
        BindTextures(gl, FirstTwo(textures), uniformLocations);
      }
    }

    /** `animateTransition`. */
    method AnimateTransition()
      requires Valid() && isTransitioning && transitionTime < DURATION - 0.05
      modifies this, gl
      ensures Valid() && State() == Step(old(State()))
      ensures Rotates(old(State())) ==> gl.st == BindSlots(old(gl.st), AllBound(FirstTwo(textures)), uniformLocations)
      ensures !Rotates(old(State())) ==> gl.st == old(gl.st)
    {
      if direction == 1 {
        progress := EaseOutCubic(transitionTime, 0.0, 1.0, DURATION);
      } else {
        progress := 1.0 - EaseOutCubic(transitionTime, 0.0, 1.0, DURATION);
        if progress == 1.0 {
          RotateTextures(direction);
          BindTextures(gl, FirstTwo(textures), uniformLocations);
        }
      }
      transitionTime := transitionTime + SPEED;
    }

    /** `updateTransitionProgress`: nothing outside a transition; a stop
      once the time reaches `DURATION - 0.05`; a frame of easing before. */
    method UpdateTransitionProgress()
      requires Valid()
      modifies this, gl
      ensures Valid() && State() == Step(old(State()))
      ensures Rotates(old(State())) ==> gl.st == BindSlots(old(gl.st), AllBound(FirstTwo(textures)), uniformLocations)
      ensures !Rotates(old(State())) ==> gl.st == old(gl.st)
    {
      if !isTransitioning {
        return;
      }
      if transitionTime >= DURATION - 0.05 {
        StopTransition();
        return;
      }
      AnimateTransition();
    }
  }
}

/** The input normalizer of the hero component: the wheel and touch handlers
    that drive a clamped virtual-scroll accumulator, and the mouse handler
    that turns a pointer position into a signed parallax offset.

    The handlers change state step by step, so they are methods of the class
    `InputNormalizer`; the pure functions `Step`, `Accumulate`, `Moves` and
    `Sum` say what any run of those handlers computes, and the lemmas below
    prove the properties the component relies on. */
module ScrollInput {
  import opened Numeric

  /** `MAX_SCROLL`: the upper end of the virtual scroll range. */
  const MaxScroll: real := 3000.0

  /** The scroll value after one handler adds `delta` to `scroll`: the sum
      clamped into `[0, MaxScroll]`, landing exactly on the bound it would
      overshoot. */
  function Step(scroll: real, delta: real): (r: real)
    ensures 0.0 <= r <= MaxScroll
    ensures scroll + delta < 0.0 ==> r == 0.0
    ensures MaxScroll < scroll + delta ==> r == MaxScroll
    ensures 0.0 <= scroll + delta <= MaxScroll ==> r == scroll + delta
  {
    Clamp(scroll + delta, 0.0, MaxScroll)
  }

  /** The scroll value after the deltas `ds` are applied one by one, in
      order, starting from `scroll`. */
  function Accumulate(scroll: real, ds: seq<real>): (r: real)
    ensures ds != [] ==> 0.0 <= r <= MaxScroll
    ensures ds == [] ==> r == scroll
  {
    if ds == [] then scroll
    else Step(Accumulate(scroll, ds[..|ds| - 1]), ds[|ds| - 1])
  }

  /** The plain (unclamped) sum of a sequence of deltas. */
  function Sum(ds: seq<real>): real
  {
    if ds == [] then 0.0 else Sum(ds[..|ds| - 1]) + ds[|ds| - 1]
  }

  /** The deltas a run of `touchmove` events at the positions `ys` feeds to
      the accumulator when the gesture's baseline starts at `baseline`:
      each move contributes the previous position minus the new one. */
  function Moves(baseline: real, ys: seq<real>): (ds: seq<real>)
    ensures |ds| == |ys|
    ensures |ys| > 0 ==> ds[0] == baseline - ys[0]
    ensures forall k :: 0 < k < |ys| ==> ds[k] == ys[k - 1] - ys[k]
  {
    seq(|ys|, k requires 0 <= k < |ys| => (if k == 0 then baseline else ys[k - 1]) - ys[k])
  }

  /** No intermediate value of the run `ds` from `scroll` leaves the range,
      so no clamping ever happens. */
  ghost predicate Unclamped(scroll: real, ds: seq<real>)
  {
    forall k :: 0 < k <= |ds| ==> 0.0 <= scroll + Sum(ds[..k]) <= MaxScroll
  }

  /** The deltas of a touch gesture telescope: the moves through
      `y0, y1, ..., yn` from baseline `b` add up to `b - yn`. */
  lemma {:induction false} MovesTelescope(baseline: real, ys: seq<real>)
    requires |ys| > 0
    ensures Sum(Moves(baseline, ys)) == baseline - ys[|ys| - 1]
  {
    var n := |ys|;
    var ds := Moves(baseline, ys);
    if n > 1 {
      MovesTelescope(baseline, ys[..n - 1]);
      assert ds[..n - 1] == Moves(baseline, ys[..n - 1]);
      assert ds[n - 1] == ys[n - 2] - ys[n - 1];
    }
  }

  /** While no clamping happens, the accumulator is just the starting value
      plus the sum of the deltas. */
  lemma {:induction false} UnclampedIsSum(scroll: real, ds: seq<real>)
    requires Unclamped(scroll, ds)
    ensures Accumulate(scroll, ds) == scroll + Sum(ds)
  {
    var n := |ds|;
    if n > 0 {
      var front := ds[..n - 1];
      assert ds[..n] == ds;
      forall k | 0 < k <= |front|
        ensures 0.0 <= scroll + Sum(front[..k]) <= MaxScroll
      {
        assert front[..k] == ds[..k];
      }
      UnclampedIsSum(scroll, front);
    }
  }

  /** A touch gesture from baseline `b` through `y0, ..., yn` that never
      reaches a bound moves the scroll value by exactly `b - yn`. */
  lemma TouchGestureMovesBy(scroll: real, baseline: real, ys: seq<real>)
    requires |ys| > 0
    requires Unclamped(scroll, Moves(baseline, ys))
    ensures Accumulate(scroll, Moves(baseline, ys)) == scroll + baseline - ys[|ys| - 1]
  {
    UnclampedIsSum(scroll, Moves(baseline, ys));
    MovesTelescope(baseline, ys);
  }

  /** The mouse handler's parallax signal: the pointer's horizontal position
      inside the container, normalised to `[-1, 1]` and scaled by 100. The
      container has a positive width whenever the pointer can move over it. */
  function MouseParallax(clientX: real, left: real, width: real): (r: real)
    requires width > 0.0
    ensures left <= clientX <= left + width ==> -100.0 <= r <= 100.0
    ensures clientX == left ==> r == -100.0
    ensures clientX == left + width ==> r == 100.0
    ensures clientX == left + width / 2.0 ==> r == 0.0
    ensures clientX < left + width / 2.0 <==> r < 0.0
  {
    var relativeX := clientX - left;
    var fraction := relativeX / width;
    assert fraction * width == relativeX;
    assert fraction < 0.5 <==> fraction * width < 0.5 * width;
    assert clientX < left + width / 2.0 <==> relativeX < 0.5 * width;
    var normalizedX := fraction * 2.0 - 1.0;
    assert normalizedX * 100.0 < 0.0 <==> fraction < 0.5;
    normalizedX * 100.0
  }

  /** The mutable input state of one mounted hero: `scrollRef.current`, the
      touch handler's baseline `touchStartY`, and the raw `mouseX` motion
      value. The ghost field `Deltas` records every delta the accumulator
      has been given, so that `scroll` is always `Accumulate(0, Deltas)`. */
  class InputNormalizer {
    var scroll: real
    var touchStartY: real
    var mouseX: real
    ghost var Deltas: seq<real>

    ghost predicate Valid()
      reads this
    {
      scroll == Accumulate(0.0, Deltas) && 0.0 <= scroll <= MaxScroll
    }

    /** State at mount: scroll 0, baseline 0, pointer offset 0. */
    constructor ()
      ensures Valid()
      ensures scroll == 0.0 && touchStartY == 0.0 && mouseX == 0.0 && Deltas == []
    {
      scroll := 0.0;
      touchStartY := 0.0;
      mouseX := 0.0;
      Deltas := [];
    }

    /** The scroll value moves by `delta` and is clamped into range. */
    method AddDelta(delta: real)
      requires Valid()
      modifies this`scroll, this`Deltas
      ensures Valid()
      ensures scroll == Step(old(scroll), delta)
      ensures Deltas == old(Deltas) + [delta]
    {
      scroll := Min(Max(scroll + delta, 0.0), MaxScroll);
      Deltas := Deltas + [delta];
      assert Deltas[..|Deltas| - 1] == old(Deltas);
    }

    /** A wheel event adds its `deltaY`; the baseline and the pointer
        offset are untouched. */
    method Wheel(deltaY: real)
      requires Valid()
      modifies this`scroll, this`Deltas
      ensures Valid()
      ensures scroll == Step(old(scroll), deltaY)
      ensures Deltas == old(Deltas) + [deltaY]
      ensures touchStartY == old(touchStartY) && mouseX == old(mouseX)
    {
      AddDelta(deltaY);
    }

    /** `touchstart` only records the baseline; the scroll value and the
        record of deltas do not change. */
    method TouchStart(clientY: real)
      requires Valid()
      modifies this`touchStartY
      ensures Valid()
      ensures touchStartY == clientY
      ensures scroll == old(scroll) && Deltas == old(Deltas) && mouseX == old(mouseX)
    {
      touchStartY := clientY;
    }

    /** `touchmove` applies the delta `baseline - clientY` and then moves
        the baseline to `clientY`. */
    method TouchMove(clientY: real)
      requires Valid()
      modifies this`scroll, this`touchStartY, this`Deltas
      ensures Valid()
      ensures scroll == Step(old(scroll), old(touchStartY) - clientY)
      ensures Deltas == old(Deltas) + [old(touchStartY) - clientY]
      ensures touchStartY == clientY
      ensures mouseX == old(mouseX)
    {
      var deltaY := touchStartY - clientY;
      touchStartY := clientY;
      AddDelta(deltaY);
    }

    /** A whole touch gesture: `touchstart` at `baseline`, then one
        `touchmove` per position in `ys`. The handlers' baseline carry-over
        makes the deltas they apply exactly `Moves(baseline, ys)`; the
        scroll value is their clamped accumulation, and a gesture that
        never reaches a bound moves it by exactly `baseline - last y`. */
    method TouchGesture(baseline: real, ys: seq<real>)
      requires Valid()
      modifies this`scroll, this`touchStartY, this`Deltas
      ensures Valid()
      ensures Deltas == old(Deltas) + Moves(baseline, ys)
      ensures scroll == Accumulate(old(scroll), Moves(baseline, ys))
      ensures touchStartY == (if ys == [] then baseline else ys[|ys| - 1])
      ensures |ys| > 0 && Unclamped(old(scroll), Moves(baseline, ys)) ==>
                scroll == old(scroll) + baseline - ys[|ys| - 1]
      ensures mouseX == old(mouseX)
    {
      TouchStart(baseline);
      var moves := Moves(baseline, ys);
      var k := 0;
      while k < |ys|
        invariant 0 <= k <= |ys|
        invariant Valid()
        invariant Deltas == old(Deltas) + moves[..k]
        invariant scroll == Accumulate(old(scroll), moves[..k])
        invariant touchStartY == (if k == 0 then baseline else ys[k - 1])
        invariant mouseX == old(mouseX)
      {
        assert moves[..k + 1][..k] == moves[..k];
        TouchMove(ys[k]);
        assert moves[..k + 1] == moves[..k] + [moves[k]];
        k := k + 1;
      }
      assert moves[..|ys|] == moves;
      if |ys| > 0 && Unclamped(old(scroll), moves) {
        TouchGestureMovesBy(old(scroll), baseline, ys);
      }
    }

    /** `mousemove` over a container at `left` of width `width` sets the
        raw parallax offset; the scroll state is untouched. */
    method MouseMove(clientX: real, left: real, width: real)
      requires Valid()
      requires width > 0.0
      modifies this`mouseX
      ensures Valid()
      ensures mouseX == MouseParallax(clientX, left, width)
      ensures scroll == old(scroll) && touchStartY == old(touchStartY) && Deltas == old(Deltas)
    {
      var relativeX := clientX - left;
      var normalizedX := (relativeX / width) * 2.0 - 1.0;
      mouseX := normalizedX * 100.0;
    }
  }
}

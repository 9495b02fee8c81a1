/** The layout solver of the hero component: the pure computation, run for
    every card `i` of the catalog on every render, of the target transform
    the card animates towards. It depends on the layout phase, the container
    size, and three smoothed signals: the morph progress, the arc rotation
    (in degrees) and the parallax offset, all taken here as arbitrary reals.

    `Math.PI`, `Math.cos` and `Math.sin` are not interpreted: they are passed
    in as a `Trig` record, so every property below holds whatever values they
    return; where a property needs `cos^2 + sin^2 = 1`, it says so. */
module LayoutSolver {
  import opened Numeric
  import opened PhaseSequencer

  /** `TOTAL_IMAGES`: the number of cards laid out. */
  const TotalImages: nat := 20
  /** Horizontal distance between neighbouring cards in the line phase. */
  const LineSpacing: real := 70.0
  /** Containers narrower than this use the mobile arc constants. */
  const MobileBreakpoint: real := 768.0

  /** The target a card animates towards. */
  datatype Transform = Transform(x: real, y: real, rotation: real, scale: real, opacity: real)

  /** The observed container size. */
  datatype Viewport = Viewport(width: real, height: real)

  /** A position and a card rotation (in degrees) on the circle or the arc. */
  datatype Pose = Pose(x: real, y: real, rotation: real)

  /** `Math.PI`, `Math.cos` and `Math.sin` (the latter two on radians). */
  datatype Trig = Trig(pi: real, cos: real -> real, sin: real -> real)

  /** The point of `trig` at `rad` lies on the unit circle. */
  predicate OnUnitCircle(trig: Trig, rad: real)
  {
    trig.cos(rad) * trig.cos(rad) + trig.sin(rad) * trig.sin(rad) == 1.0
  }

  /** The point `(x, y)` lies at distance `radius` from `(cx, cy)`. */
  predicate AtDistance(x: real, y: real, cx: real, cy: real, radius: real)
  {
    (x - cx) * (x - cx) + (y - cy) * (y - cy) == radius * radius
  }

  /** `lerp`: the point a fraction `t` of the way from `start` to `end`. It
      is `start` at 0, `end` at 1, moves by exactly `t` times the distance,
      and for `t` in `[0, 1]` never leaves the segment between the two. */
  function Lerp(start: real, end: real, t: real): (r: real)
    ensures r - start == t * (end - start)
    ensures t == 0.0 ==> r == start
    ensures t == 1.0 ==> r == end
    ensures 0.0 <= t <= 1.0 ==> Min(start, end) <= r <= Max(start, end)
  {
    var r := start * (1.0 - t) + end * t;
    assert r - start == t * (end - start);
    FractionBetween(t, end - start);
    r
  }

  /** The scatter pose of one card, from three draws of `Math.random`:
      a draw in `[0, 1)` puts the card in `[-750, 750) x [-500, 500)`,
      turned by an angle in `[-90, 90)`, at scale 0.6 and invisible. */
  function ScatterPose(randX: real, randY: real, randRotation: real): (r: Transform)
    ensures 0.0 <= randX < 1.0 ==> -750.0 <= r.x < 750.0
    ensures 0.0 <= randY < 1.0 ==> -500.0 <= r.y < 500.0
    ensures 0.0 <= randRotation < 1.0 ==> -90.0 <= r.rotation < 90.0
    ensures r.scale == 0.6 && r.opacity == 0.0
  {
    Transform((randX - 0.5) * 1500.0, (randY - 0.5) * 1000.0, (randRotation - 0.5) * 180.0, 0.6, 0.0)
  }

  /** The line-phase target of card `i`: a horizontal strip at height 0,
      unrotated, full size and opaque, with card `i` at `70 i - 700`. The
      strip runs from -700 to 630: it is not centred on 0. */
  function LineTarget(i: nat): (r: Transform)
    ensures r.x == 70.0 * (i as real) - 700.0
    ensures i < TotalImages ==> -700.0 <= r.x <= 630.0
    ensures r.y == 0.0 && r.rotation == 0.0 && r.scale == 1.0 && r.opacity == 1.0
  {
    var lineTotalWidth := (TotalImages as real) * LineSpacing;
    var lineX := (i as real) * LineSpacing - lineTotalWidth / 2.0;
    Transform(lineX, 0.0, 0.0, 1.0, 1.0)
  }

  /** Neighbouring cards on the line are exactly one spacing apart, and the
      line keeps the catalog order from left to right. */
  lemma LineEvenlySpaced(i: nat, j: nat)
    requires i < j
    ensures LineTarget(i + 1).x - LineTarget(i).x == LineSpacing
    ensures LineTarget(j).x - LineTarget(i).x == LineSpacing * ((j - i) as real)
    ensures LineTarget(i).x < LineTarget(j).x
  {
  }

  /** The first and last cards are not mirror images: their positions add
      up to minus one spacing, not to 0. */
  lemma LineNotCentred()
    ensures LineTarget(0).x + LineTarget(TotalImages - 1).x == -LineSpacing
  {
  }

  /** Degrees to radians, with the given value of `Math.PI`: 0 degrees is
      0, half a turn is `Math.PI`, and the ratio of radians to degrees is
      always `Math.PI / 180`. */
  function Radians(deg: real, trig: Trig): (rad: real)
    ensures rad * 180.0 == deg * trig.pi
    ensures deg == 0.0 ==> rad == 0.0
    ensures deg == 180.0 ==> rad == trig.pi
  {
    deg * trig.pi / 180.0
  }

  /** Angle of card `i` on the circle: the cards share the full turn
      equally, 18 degrees apart, from 0 up to 342. */
  function CircleAngle(i: nat): (deg: real)
    ensures deg == 18.0 * (i as real)
    ensures i < TotalImages ==> 0.0 <= deg < 360.0
  {
    ((i as real) / (TotalImages as real)) * 360.0
  }

  /** Radius of the circle: 35% of the smaller container side, capped at
      350. */
  function CircleRadius(vp: Viewport): (radius: real)
    ensures radius <= 350.0
    ensures radius <= 0.35 * Min(vp.width, vp.height)
    ensures radius == 350.0 || radius == 0.35 * Min(vp.width, vp.height)
  {
    var minDimension := Min(vp.width, vp.height);
    Min(minDimension * 0.35, 350.0)
  }

  /** Card `i` on the circle: it faces along the tangent, its rotation
      being its angle plus 90. */
  function CirclePose(i: nat, vp: Viewport, trig: Trig): (p: Pose)
    ensures p.rotation == CircleAngle(i) + 90.0
  {
    var circleRadius := CircleRadius(vp);
    var circleAngle := CircleAngle(i);
    var circleRad := Radians(circleAngle, trig);
    Pose(trig.cos(circleRad) * circleRadius, trig.sin(circleRad) * circleRadius, circleAngle + 90.0)
  }

  /** Card `i` lies at distance `CircleRadius` from the centre whenever
      `cos` and `sin` give a point of the unit circle. */
  lemma CirclePoseOnCircle(i: nat, vp: Viewport, trig: Trig)
    requires OnUnitCircle(trig, Radians(CircleAngle(i), trig))
    ensures var p := CirclePose(i, vp, trig);
            AtDistance(p.x, p.y, 0.0, 0.0, CircleRadius(vp))
  {
    var rad := Radians(CircleAngle(i), trig);
    OnCircleOfRadius(trig.cos(rad), trig.sin(rad), CircleRadius(vp));
  }

  /** A unit vector scaled by `radius` has length `radius`. */
  lemma OnCircleOfRadius(c: real, s: real, radius: real)
    ensures c * c + s * s == 1.0 ==> AtDistance(c * radius, s * radius, 0.0, 0.0, radius)
  {
    assert (c * radius) * (c * radius) + (s * radius) * (s * radius) == (c * c + s * s) * (radius * radius);
  }

  /** The breakpoint: a container strictly narrower than 768 is laid out as
      mobile; one exactly 768 wide is already desktop. */
  predicate IsMobile(vp: Viewport)
    ensures vp.width < MobileBreakpoint ==> IsMobile(vp)
    ensures MobileBreakpoint <= vp.width ==> !IsMobile(vp)
  {
    vp.width < MobileBreakpoint
  }

  /** Degrees of arc the cards are spread over: 100 on mobile, 130 on
      desktop. */
  function SpreadAngle(vp: Viewport): (deg: real)
    ensures 100.0 <= deg <= 130.0
    ensures deg == 100.0 <==> IsMobile(vp)
  {
    if IsMobile(vp) then 100.0 else 130.0
  }

  /** Angle of the first card on the unrotated arc: half the spread to the
      left of straight up (-90). */
  function StartAngle(vp: Viewport): (deg: real)
    ensures deg + SpreadAngle(vp) / 2.0 == -90.0
  {
    -90.0 - (SpreadAngle(vp) / 2.0)
  }

  /** Angle between neighbouring cards on the arc: the spread shared over
      the 19 gaps between 20 cards. */
  function AngleStep(vp: Viewport): (step: real)
    ensures step * ((TotalImages - 1) as real) == SpreadAngle(vp)
    ensures step > 0.0
  {
    SpreadAngle(vp) / ((TotalImages - 1) as real)
  }

  /** The arc rotation signal as a fraction of a full turn, clamped into
      `[0, 1]`. */
  function ScrollProgress(rotateValue: real): (p: real)
    ensures 0.0 <= p <= 1.0
    ensures rotateValue <= 0.0 ==> p == 0.0
    ensures 360.0 <= rotateValue ==> p == 1.0
    ensures 0.0 <= rotateValue <= 360.0 ==> p * 360.0 == rotateValue
  {
    Clamp(rotateValue / 360.0, 0.0, 1.0)
  }

  /** The rigid rotation of the whole arc: never positive and never more
      than 80% of the spread, so the arc turns by at most `0.8 * spread`. */
  function BoundedRotation(vp: Viewport, rotateValue: real): (deg: real)
    ensures -0.8 * SpreadAngle(vp) <= deg <= 0.0
    ensures rotateValue <= 0.0 ==> deg == 0.0
    ensures 360.0 <= rotateValue ==> deg == -0.8 * SpreadAngle(vp)
  {
    var scrollProgress := ScrollProgress(rotateValue);
    var maxRotation := SpreadAngle(vp) * 0.8;
    assert 0.0 <= scrollProgress * maxRotation <= maxRotation;
    -scrollProgress * maxRotation
  }

  /** Angle of card `i` on the arc. Unrotated, card 0 sits at the start
      angle and card 19 at `-90 + spread / 2`; under any rotation every
      card stays between `StartAngle - 0.8 * spread` and `-90 + spread / 2`. */
  function ArcAngle(i: nat, vp: Viewport, rotateValue: real): (deg: real)
    ensures rotateValue <= 0.0 && i == 0 ==> deg == StartAngle(vp)
    ensures rotateValue <= 0.0 && i == TotalImages - 1 ==> deg == -90.0 + SpreadAngle(vp) / 2.0
    ensures i < TotalImages ==>
              StartAngle(vp) - 0.8 * SpreadAngle(vp) <= deg <= -90.0 + SpreadAngle(vp) / 2.0
  {
    var step := AngleStep(vp);
    assert (i as real) * step <= ((TotalImages - 1) as real) * step <== i < TotalImages;
    StartAngle(vp) + ((i as real) * step) + BoundedRotation(vp, rotateValue)
  }

  /** Neighbouring cards on the arc are one step apart, whatever the
      rotation. */
  lemma ArcEvenlySpaced(i: nat, vp: Viewport, rotateValue: real)
    ensures ArcAngle(i + 1, vp, rotateValue) - ArcAngle(i, vp, rotateValue) == AngleStep(vp)
  {
  }

  /** Radius of the arc: the smaller of the width and 1.5 times the height,
      times 1.4 on mobile or 1.1 on desktop. */
  function ArcRadius(vp: Viewport): (radius: real)
    ensures 0.0 <= vp.width && 0.0 <= vp.height ==>
              0.0 <= radius <= 1.4 * vp.width && radius <= 2.1 * vp.height
    ensures 0.0 <= vp.width && 0.0 <= vp.height && !IsMobile(vp) ==>
              radius <= 1.1 * vp.width && radius <= 1.65 * vp.height
  {
    var baseRadius := Min(vp.width, vp.height * 1.5);
    baseRadius * (if IsMobile(vp) then 1.4 else 1.1)
  }

  /** Height of the arc's apex: 35% of the container height on mobile, 25%
      on desktop. */
  function ArcApexY(vp: Viewport): (y: real)
    ensures 0.0 <= vp.height ==> 0.25 * vp.height <= y <= 0.35 * vp.height
    ensures 0.0 < vp.height ==> (y == 0.35 * vp.height <==> IsMobile(vp))
  {
    vp.height * (if IsMobile(vp) then 0.35 else 0.25)
  }

  /** Scale of a card on the arc: 1.4 on mobile, 1.8 on desktop. */
  function ArcScale(vp: Viewport): (scale: real)
    ensures 1.4 <= scale <= 1.8
    ensures scale == 1.4 <==> IsMobile(vp)
  {
    if IsMobile(vp) then 1.4 else 1.8
  }

  /** The breakpoint switches every arc constant at once: a container
      narrower than 768 gets a 100-degree spread, a 1.4 radius factor, the
      apex at 35% of the height and cards at scale 1.4; a wider one gets
      130 degrees, 1.1, 25% and 1.8. The start angle is -140 or -155, and a
      fully rotated arc has turned by 80 or 104 degrees. */
  lemma BreakpointConstants(vp: Viewport)
    ensures IsMobile(vp) ==>
              SpreadAngle(vp) == 100.0 && ArcRadius(vp) == 1.4 * Min(vp.width, vp.height * 1.5) &&
              ArcApexY(vp) == 0.35 * vp.height && ArcScale(vp) == 1.4 &&
              StartAngle(vp) == -140.0 && BoundedRotation(vp, 360.0) == -80.0
    ensures !IsMobile(vp) ==>
              SpreadAngle(vp) == 130.0 && ArcRadius(vp) == 1.1 * Min(vp.width, vp.height * 1.5) &&
              ArcApexY(vp) == 0.25 * vp.height && ArcScale(vp) == 1.8 &&
              StartAngle(vp) == -155.0 && BoundedRotation(vp, 360.0) == -104.0
  {
  }

  /** Card `i` on the arc: it faces along the tangent, its rotation being
      its arc angle plus 90. */
  function ArcPose(i: nat, vp: Viewport, rotateValue: real, parallax: real, trig: Trig): (p: Pose)
    ensures p.rotation == ArcAngle(i, vp, rotateValue) + 90.0
  {
    var arcRadius := ArcRadius(vp);
    var arcCenterY := ArcCenterY(vp);
    var currentArcAngle := ArcAngle(i, vp, rotateValue);
    var arcRad := Radians(currentArcAngle, trig);
    Pose(trig.cos(arcRad) * arcRadius + parallax, trig.sin(arcRad) * arcRadius + arcCenterY, currentArcAngle + 90.0)
  }

  /** The arc is a circle of radius `ArcRadius` around the point
      `(parallax, ArcCenterY)`: every card lies on it whenever `cos` and
      `sin` give a point of the unit circle, and a card at the top
      (`sin = -1`) sits exactly at the apex height. */
  lemma ArcPoseOnArc(i: nat, vp: Viewport, rotateValue: real, parallax: real, trig: Trig)
    ensures var p := ArcPose(i, vp, rotateValue, parallax, trig);
            var rad := Radians(ArcAngle(i, vp, rotateValue), trig);
            (trig.sin(rad) == -1.0 ==> p.y == ArcApexY(vp)) &&
            (OnUnitCircle(trig, rad) ==> AtDistance(p.x, p.y, parallax, ArcCenterY(vp), ArcRadius(vp)))
  {
    var rad := Radians(ArcAngle(i, vp, rotateValue), trig);
    OnCircleOfRadius(trig.cos(rad), trig.sin(rad), ArcRadius(vp));
  }

  /** The arc's centre: one arc radius below the apex. */
  function ArcCenterY(vp: Viewport): (y: real)
    ensures y - ArcRadius(vp) == ArcApexY(vp)
  {
    ArcApexY(vp) + ArcRadius(vp)
  }

  /** The steady-state target of card `i`: the circle pose and the arc pose
      blended by the morph progress. It is always opaque; at morph 0 it is
      the circle pose at scale 1, at morph 1 the arc pose at the arc scale,
      and in between every component lies between the two poses' values. */
  function SteadyTarget(i: nat, vp: Viewport, morph: real, rotateValue: real, parallax: real, trig: Trig)
    : (r: Transform)
    ensures r.opacity == 1.0
    ensures morph == 0.0 ==>
              var c := CirclePose(i, vp, trig);
              r.x == c.x && r.y == c.y && r.rotation == c.rotation && r.scale == 1.0
    ensures morph == 1.0 ==>
              var a := ArcPose(i, vp, rotateValue, parallax, trig);
              r.x == a.x && r.y == a.y && r.rotation == a.rotation && r.scale == ArcScale(vp)
    ensures 0.0 <= morph <= 1.0 ==>
              var c := CirclePose(i, vp, trig);
              var a := ArcPose(i, vp, rotateValue, parallax, trig);
              1.0 <= r.scale <= ArcScale(vp) &&
              Min(c.x, a.x) <= r.x <= Max(c.x, a.x) &&
              Min(c.y, a.y) <= r.y <= Max(c.y, a.y) &&
              Min(c.rotation, a.rotation) <= r.rotation <= Max(c.rotation, a.rotation)
  {
    var circlePos := CirclePose(i, vp, trig);
    var arcPos := ArcPose(i, vp, rotateValue, parallax, trig);
    Transform(
      Lerp(circlePos.x, arcPos.x, morph),
      Lerp(circlePos.y, arcPos.y, morph),
      Lerp(circlePos.rotation, arcPos.rotation, morph),
      Lerp(1.0, ArcScale(vp), morph),
      1.0)
  }

  /** The target of card `i` in the given phase: its scatter pose (from the
      card's three draws of `Math.random`) in `Scatter`, the line layout in
      `Line`, and the steady-state blend in every other phase. A card is
      invisible exactly in the scatter phase, where it is also shrunk to
      0.6. */
  function ItemTarget(phase: AnimationPhase, i: nat, randX: real, randY: real, randRotation: real,
                      vp: Viewport, morph: real, rotateValue: real, parallax: real, trig: Trig)
    : (r: Transform)
    ensures phase == Scatter ==> r == ScatterPose(randX, randY, randRotation)
    ensures phase == Line ==> r == LineTarget(i)
    ensures phase != Scatter && phase != Line ==> r == SteadyTarget(i, vp, morph, rotateValue, parallax, trig)
    ensures r.opacity == 0.0 <==> phase == Scatter
    ensures phase != Scatter ==> r.opacity == 1.0
    ensures phase == Scatter ==> r.scale == 0.6
  {
    if phase == Scatter then ScatterPose(randX, randY, randRotation)
    else if phase == Line then LineTarget(i)
    else SteadyTarget(i, vp, morph, rotateValue, parallax, trig)
  }

  /** At morph 0 every card of the steady state lies on the circle of
      radius `CircleRadius` around the centre. */
  lemma SteadyCircleDistance(i: nat, vp: Viewport, rotateValue: real, parallax: real, trig: Trig)
    requires OnUnitCircle(trig, Radians(CircleAngle(i), trig))
    ensures var r := SteadyTarget(i, vp, 0.0, rotateValue, parallax, trig);
            AtDistance(r.x, r.y, 0.0, 0.0, CircleRadius(vp))
  {
    var c := CirclePose(i, vp, trig);
    var r := SteadyTarget(i, vp, 0.0, rotateValue, parallax, trig);
    assert r.x == c.x && r.y == c.y;
    CirclePoseOnCircle(i, vp, trig);
  }

  /** Without scroll rotation, card `i` sits exactly `i` steps after the
      start angle. */
  lemma UnrotatedArcAngle(i: nat, vp: Viewport, rotateValue: real)
    requires rotateValue <= 0.0
    ensures ArcAngle(i, vp, rotateValue) == StartAngle(vp) + (i as real) * AngleStep(vp)
  {
    ArcAngleParts(i, vp, rotateValue);
  }

  /** The arc angle is the start angle, plus `i` steps, plus the rigid
      rotation. */
  lemma ArcAngleParts(i: nat, vp: Viewport, rotateValue: real)
    ensures ArcAngle(i, vp, rotateValue) == StartAngle(vp) + (i as real) * AngleStep(vp) + BoundedRotation(vp, rotateValue)
  {
  }
}

/**
 * The pure rules of the 3D scene (frontend/src/components/ExoplanetScene.tsx):
 * hash-based visual defaults, orbital angular speed, camera framing distance,
 * the eased camera transition, and the focus-driven material styling.
 * Three.js objects are not modelled; a scene entry is its parameters and the
 * material state the animation loop assigns.
 */
module SceneRules {
  import opened Wrappers
  import opened App

  /** `Math.PI` as a double. */
  const Pi: real := 3.141592653589793

  // ---------------------------------------------------------------------
  // Hash-based visual defaults (`getPlanetDefaults`)
  // ---------------------------------------------------------------------

  /** The sum of the character codes of an id. */
  function Hash(id: string): nat
  {
    if id == [] then 0 else id[0] as nat + Hash(id[1..])
  }

  const BaseDistances: seq<real> := [3.0, 5.0, 8.0, 12.0, 16.0, 20.0]
  const BaseSizes: seq<real> := [0.5, 0.8, 1.0, 1.2, 1.5, 2.0]
  const BasePeriods: seq<real> := [88.0, 225.0, 365.0, 687.0, 1083.0, 1686.0]

  /** The slot `hash % 6` that picks the base distance, size and period. */
  function Slot(id: string): (k: nat)
    ensures k < 6
  {
    Hash(id) % 6
  }

  /** The record with its distance, diameter and period taken from `g`. */
  function WithGeometry(p: VisualizationParams, g: VisualizationParams): (r: VisualizationParams)
  {
    p.(planetDistance := g.planetDistance, planetDiameter := g.planetDiameter,
       planetOrbitalPeriod := g.planetOrbitalPeriod)
  }

  /** The three drawn quantities of a record. */
  function Geometry(p: VisualizationParams): (real, real, real)
  {
    (p.planetDistance, p.planetDiameter, p.planetOrbitalPeriod)
  }

  /** Fresh defaults: every field of the input is kept except distance, diameter
      and period, which vary around the slot's base values by the hash. */
  function FreshDefaults(p: VisualizationParams): (r: VisualizationParams)
    ensures WithGeometry(r, p) == p
    ensures var k := Slot(p.kepoi_name);
      && BaseDistances[k] - 2.0 <= r.planetDistance <= BaseDistances[k] + 1.96
      && BaseSizes[k] - 0.2 <= r.planetDiameter <= BaseSizes[k] + 0.19
      && BasePeriods[k] - 100.0 <= r.planetOrbitalPeriod <= BasePeriods[k] + 99.0
  {
    var h := Hash(p.kepoi_name);
    var k := h % 6;
    p.(planetDistance := BaseDistances[k] + ((h % 100) as real - 50.0) * 0.04,
       planetDiameter := BaseSizes[k] + ((h % 40) as real - 20.0) * 0.01,
       planetOrbitalPeriod := BasePeriods[k] + ((h % 200) as real - 100.0))
  }

  /** The defaults depend on the id alone, so a planet keeps its look across updates. */
  lemma FreshDefaultsDependOnIdOnly(p: VisualizationParams, q: VisualizationParams)
    requires p.kepoi_name == q.kepoi_name
    ensures Geometry(FreshDefaults(p)) == Geometry(FreshDefaults(q))
  {
  }

  /** Distance and diameter are always positive, but the period can only be
      non-positive in slot 0, whose base (88 days) is below the spread of 100. */
  lemma FreshDefaultsSigns(p: VisualizationParams)
    ensures FreshDefaults(p).planetDistance > 0.0 && FreshDefaults(p).planetDiameter > 0.0
    ensures FreshDefaults(p).planetOrbitalPeriod <= 0.0 ==> Slot(p.kepoi_name) == 0 && Hash(p.kepoi_name) % 200 <= 12
  {
    var h := Hash(p.kepoi_name);
    var k := h % 6;
    assert BaseDistances[k] >= 3.0 && BaseSizes[k] >= 0.5;
    assert k != 0 ==> BasePeriods[k] >= 225.0;
  }

  /** A custom id the form can generate whose default period is negative, so that
      planet orbits backwards. */
  lemma NegativeDefaultPeriodExample(p: VisualizationParams)
    requires p.kepoi_name == "CUSTOM999950"
    ensures FreshDefaults(p).planetOrbitalPeriod == -8.0
  {
    ExampleHash();
    assert Hash(p.kepoi_name) % 6 == 0 && Hash(p.kepoi_name) % 200 == 4;
  }

  lemma ExampleHash()
    ensures Hash("CUSTOM999950") == 804
  {
    var s := "CUSTOM999950";
    assert s[11..] == "0";
    assert Hash("0") == 48 by { assert "0"[1..] == []; }
    HashFrom(s, 10);
    HashFrom(s, 9);
    HashFrom(s, 8);
    HashFrom(s, 7);
    HashFrom(s, 6);
    HashFrom(s, 5);
    HashFrom(s, 4);
    HashFrom(s, 3);
    HashFrom(s, 2);
    HashFrom(s, 1);
    HashFrom(s, 0);
    assert s[0..] == s;
  }

  /** Hashing a suffix adds one character code at a time. */
  lemma HashFrom(s: string, i: nat)
    requires i < |s|
    ensures Hash(s[i..]) == s[i] as nat + Hash(s[i + 1..])
  {
    assert s[i..][1..] == s[i + 1..];
  }

  // ---------------------------------------------------------------------
  // Orbital motion
  // ---------------------------------------------------------------------

  /** `timeScale` of `getOrbitalSpeed` and the animation loop's time step. */
  const TimeScale: real := 100.0
  const FrameDelta: real := 0.01

  /** An orbital angle; a period of 0 makes the speed `Infinity` in JavaScript and the
      angle non-finite from then on. */
  datatype Angle = Finite(radians: real) | NonFinite

  /** `getOrbitalSpeed(planet) * 0.01`, the angle added per frame; `None` stands for the
      infinite speed of a zero period. */
  function AngleStep(period: real): (d: Option<real>)
    ensures d.None? <==> period == 0.0
    ensures d.Some? ==> d.value * period == 2.0 * Pi * TimeScale * FrameDelta
  {
    if period == 0.0 then None else Some((2.0 * Pi * TimeScale) / period * FrameDelta)
  }

  /** Shorter positive periods move faster, keeping the planets' relative speeds. */
  lemma ShorterPeriodMovesFaster(p1: real, p2: real)
    requires 0.0 < p1 < p2
    ensures AngleStep(p1).Some? && AngleStep(p2).Some?
    ensures AngleStep(p1).value > AngleStep(p2).value > 0.0
  {
    var c := 2.0 * Pi * TimeScale * FrameDelta;
    assert AngleStep(p1).value * p1 == c && AngleStep(p2).value * p2 == c;
    assert AngleStep(p2).value > 0.0;
    assert AngleStep(p1).value * p1 == AngleStep(p2).value * p2;
  }

  /** One unpaused frame of a planet's orbit. */
  function Advance(a: Angle, period: real): (r: Angle)
    ensures r.Finite? <==> a.Finite? && period != 0.0
  {
    match a
    case NonFinite => NonFinite
    case Finite(x) =>
      match AngleStep(period)
      case None => NonFinite
      case Some(d) => Finite(x + d)
  }

  /** The starting angle spreads planets evenly: `index * 2π / max(count, 1)`. */
  function StartAngle(index: nat, count: nat): (r: real)
    ensures 0.0 <= r
    ensures index < count ==> r < 2.0 * Pi
  {
    var n := if count > 1 then count else 1;
    (index as real * Pi * 2.0) / n as real
  }

  // ---------------------------------------------------------------------
  // Camera framing (`getCameraPosition`)
  // ---------------------------------------------------------------------

  datatype Vec3 = Vec3(x: real, y: real, z: real)

  /** `Math.sin` and `Math.cos` of 50 degrees, as doubles. */
  const Sin50: real := 0.766044443118978
  const Cos50: real := 0.6427876096865394

  /** The camera at `distance` on the fixed 50-degree line of sight to the origin. */
  function CameraAt(distance: real): (v: Vec3)
  {
    Vec3(0.0, distance * Sin50, distance * Cos50)
  }

  /** `Math.max(...planets.map(p => p.planetDistance), 5)`. */
  function MaxOrbitalRadius(planets: seq<VisualizationParams>): (m: real)
    ensures m >= 5.0
    ensures forall i :: 0 <= i < |planets| ==> planets[i].planetDistance <= m
    ensures m == 5.0 || exists i :: 0 <= i < |planets| && planets[i].planetDistance == m
  {
    if planets == [] then 5.0
    else
      var rest := MaxOrbitalRadius(planets[1..]);
      assert forall i :: 1 <= i < |planets| ==> planets[i] == planets[1..][i - 1];
      if planets[0].planetDistance > rest then planets[0].planetDistance else rest
  }

  /** `if (focusedPlanet)`: `null` and the empty string are both falsy. */
  predicate IsTruthy(id: Option<string>)
  {
    id.Some? && id.value != ""
  }

  function Max(a: real, b: real): real
  {
    if a >= b then a else b
  }

  /** The camera's distance from the origin: 25 with no planets; for a focused planet
      that is on screen, `max(2.5 d, 8) + 5` from its own distance; otherwise
      `max(3 · max(d..., 5) + 15, 40)`. */
  function CameraBaseDistance(planets: seq<VisualizationParams>, focused: Option<string>): (d: real)
  {
    if |planets| == 0 then 25.0
    else
      var f := if IsTruthy(focused) then FindByKepoiName(planets, focused) else None;
      if f.Some? then Max(f.value.planetDistance * 2.5, 8.0) + 5.0
      else Max(MaxOrbitalRadius(planets) * 3.0 + 15.0, 40.0)
  }

  /** The framing policy: a focused view is at least 13 away and grows with the focused
      orbit alone; the overview is at least 40 away and clears every orbit; a focus id
      that is not on screen falls through to the overview. */
  lemma CameraBaseDistanceSpec(planets: seq<VisualizationParams>, focused: Option<string>)
    ensures |planets| == 0 ==> CameraBaseDistance(planets, focused) == 25.0
    ensures |planets| > 0 && IsTruthy(focused) && FindByKepoiName(planets, focused).Some? ==>
              && CameraBaseDistance(planets, focused) >= 13.0
              && CameraBaseDistance(planets, focused) >= 2.5 * FindByKepoiName(planets, focused).value.planetDistance + 5.0
    ensures |planets| > 0 && (!IsTruthy(focused) || FindByKepoiName(planets, focused).None?) ==>
              && CameraBaseDistance(planets, focused) >= 40.0
              && forall i :: 0 <= i < |planets| ==>
                   CameraBaseDistance(planets, focused) >= 3.0 * planets[i].planetDistance + 15.0
  {
  }

  /** Moving a focused planet's orbit outwards never brings the focused camera closer. */
  lemma FocusedDistanceMonotonic(planets: seq<VisualizationParams>, i: nat, d: real)
    requires i < |planets| && planets[i].kepoi_name != ""
    requires forall j :: 0 <= j < i ==> planets[j].kepoi_name != planets[i].kepoi_name
    requires d >= planets[i].planetDistance
    ensures var id := Some(planets[i].kepoi_name);
      CameraBaseDistance(planets, id) <= CameraBaseDistance(planets[i := planets[i].(planetDistance := d)], id)
  {
    var id := Some(planets[i].kepoi_name);
    var moved := planets[i := planets[i].(planetDistance := d)];
    FindFirst(planets, i);
    FindFirst(moved, i);
  }

  /** The search finds the first record with the id. */
  lemma FindFirst(planets: seq<VisualizationParams>, i: nat)
    requires i < |planets|
    requires forall j :: 0 <= j < i ==> planets[j].kepoi_name != planets[i].kepoi_name
    ensures FindByKepoiName(planets, Some(planets[i].kepoi_name)) == Some(planets[i])
  {
    var r := FindByKepoiName(planets, Some(planets[i].kepoi_name));
    var k :| 0 <= k < |planets| && planets[k] == r.value && Some(planets[k].kepoi_name) == Some(planets[i].kepoi_name)
             && forall j :: 0 <= j < k ==> Some(planets[j].kepoi_name) != Some(planets[i].kepoi_name);
    assert k == i;
  }

  // ---------------------------------------------------------------------
  // Camera transition
  // ---------------------------------------------------------------------

  /** The smoothstep easing `t² (3 − 2t)`. */
  function Smoothstep(t: real): (s: real)
  {
    t * t * (3.0 - 2.0 * t)
  }

  /** Smoothstep maps [0, 1] onto [0, 1], fixing both ends, and never decreases there. */
  lemma SmoothstepSpec(a: real, b: real)
    requires 0.0 <= a <= b <= 1.0
    ensures Smoothstep(0.0) == 0.0 && Smoothstep(1.0) == 1.0
    ensures 0.0 <= Smoothstep(a) <= Smoothstep(b) <= 1.0
  {
    // s(b) - s(a) = (b - a) (a (3 - 2a - b) + b (3 - 2b - a)), all factors non-negative.
    assert Smoothstep(b) - Smoothstep(a) == (b - a) * (a * (3.0 - 2.0 * a - b) + b * (3.0 - 2.0 * b - a));
    MulNonNegative(a, 3.0 - 2.0 * a - b);
    MulNonNegative(b, 3.0 - 2.0 * b - a);
    MulNonNegative(b - a, a * (3.0 - 2.0 * a - b) + b * (3.0 - 2.0 * b - a));
    MulNonNegative(a * a, 3.0 - 2.0 * a);
    MulNonNegative(a, a);
    assert 1.0 - Smoothstep(b) == (1.0 - b) * (1.0 - b) * (1.0 + 2.0 * b);
    MulNonNegative(1.0 - b, 1.0 - b);
    MulNonNegative((1.0 - b) * (1.0 - b), 1.0 + 2.0 * b);
  }

  lemma MulNonNegative(x: real, y: real)
    requires x >= 0.0 && y >= 0.0
    ensures x * y >= 0.0
  {
  }

  /** `lerpVectors(start, target, t)`. */
  function Lerp(a: Vec3, b: Vec3, t: real): (v: Vec3)
  {
    Vec3(a.x + (b.x - a.x) * t, a.y + (b.y - a.y) * t, a.z + (b.z - a.z) * t)
  }

  predicate Between(a: real, b: real, v: real)
  {
    (a <= v <= b) || (b <= v <= a)
  }

  /** For a factor in [0, 1] each coordinate lies between the two end points. */
  lemma LerpBetween(a: Vec3, b: Vec3, t: real)
    requires 0.0 <= t <= 1.0
    ensures Between(a.x, b.x, Lerp(a, b, t).x) && Between(a.y, b.y, Lerp(a, b, t).y)
    ensures Between(a.z, b.z, Lerp(a, b, t).z)
    ensures Lerp(a, b, 0.0) == a && Lerp(a, b, 1.0) == b
  {
    LerpCoordinate(a.x, b.x, t);
    LerpCoordinate(a.y, b.y, t);
    LerpCoordinate(a.z, b.z, t);
  }

  lemma LerpCoordinate(a: real, b: real, t: real)
    requires 0.0 <= t <= 1.0
    ensures Between(a, b, a + (b - a) * t)
  {
    if a <= b {
      MulNonNegative(b - a, t);
      MulNonNegative(b - a, 1.0 - t);
    } else {
      MulNonNegative(a - b, t);
      MulNonNegative(a - b, 1.0 - t);
    }
  }

  datatype CameraTransition = CameraTransition(
    isTransitioning: bool, startPosition: Vec3, targetPosition: Vec3, progress: real)

  /** The per-frame increment of the transition's progress. */
  const ProgressStep: real := 0.02

  /** One frame of the camera: nothing happens without a transition; otherwise progress
      grows by 0.02, and at 1 or more the camera snaps to the target and the transition
      ends with progress reset to 0, else it is placed on the eased segment. */
  function CameraStep(camera: Vec3, tr: CameraTransition): (Vec3, CameraTransition)
  {
    if !tr.isTransitioning then (camera, tr)
    else
      var p := tr.progress + ProgressStep;
      if p >= 1.0 then (tr.targetPosition, tr.(isTransitioning := false, progress := 0.0))
      else (Lerp(tr.startPosition, tr.targetPosition, Smoothstep(p)), tr.(progress := p))
  }

  /** `k` frames of the camera. */
  function CameraSteps(camera: Vec3, tr: CameraTransition, k: nat): (Vec3, CameraTransition)
    decreases k
  {
    if k == 0 then (camera, tr)
    else
      var next := CameraStep(camera, tr);
      CameraSteps(next.0, next.1, k - 1)
  }

  /** A transition started at progress 0 runs for 49 eased frames, each keeping the
      camera between start and target, and ends at the target on the 50th. */
  lemma {:induction false} TransitionRun(camera: Vec3, tr: CameraTransition, k: nat)
    requires tr.isTransitioning && 0 <= k <= 49 && tr.progress == k as real * ProgressStep
    ensures var r := CameraSteps(camera, tr, 50 - k);
      r.0 == tr.targetPosition && !r.1.isTransitioning && r.1.progress == 0.0
    ensures k < 49 ==> var r := CameraSteps(camera, tr, 1);
      && r.1.isTransitioning && r.1.progress == (k + 1) as real * ProgressStep
      && Between(tr.startPosition.x, tr.targetPosition.x, r.0.x)
      && Between(tr.startPosition.y, tr.targetPosition.y, r.0.y)
      && Between(tr.startPosition.z, tr.targetPosition.z, r.0.z)
    decreases 50 - k
  {
    var p := tr.progress + ProgressStep;
    assert p == (k + 1) as real * ProgressStep;
    var next := CameraStep(camera, tr);
    if k == 49 {
      assert p >= 1.0;
      assert CameraSteps(next.0, next.1, 0) == next;
    } else {
      assert p < 1.0;
      SmoothstepSpec(p, 1.0);
      LerpBetween(tr.startPosition, tr.targetPosition, Smoothstep(p));
      assert CameraSteps(camera, tr, 1) == CameraSteps(next.0, next.1, 0) == next;
      TransitionRun(next.0, next.1, k + 1);
    }
  }

  /** Distance test of the reconciliation effect, squared: `distanceTo(v) > 0.1`. */
  predicate MovesFarEnough(from: Vec3, to: Vec3)
  {
    var dx, dy, dz := to.x - from.x, to.y - from.y, to.z - from.z;
    dx * dx + dy * dy + dz * dz > 0.01
  }

  // ---------------------------------------------------------------------
  // Focus styling
  // ---------------------------------------------------------------------

  /** An orbit ring's opacity: fixed, or the focused/no-focus pulse around its
      original 0.2 floored at 0.1. */
  datatype OrbitOpacity = Fixed(opacity: real) | Pulsing

  /** The material state of one system. */
  datatype Style = Style(planetColor: string, planetOpacity: real, starColor: string,
                         starOpacity: real, orbit: OrbitOpacity)

  const GreyStar: string := "#606060"

  /** The materials a system is created with. */
  function InitialStyle(p: VisualizationParams): (s: Style)
    ensures s.planetColor == p.planetColor && s.starColor == p.starColor
    ensures s.planetOpacity == 1.0 && s.starOpacity == 1.0 && s.orbit == Fixed(0.2)
  {
    Style(p.planetColor, 1.0, p.starColor, 1.0, Fixed(0.2))
  }

  /** The materials assigned every frame: full colours with no focus and for the
      focused system; every other system keeps its planet colour but gets a grey,
      invisible star and a faint orbit. */
  function FocusStyle(p: VisualizationParams, focused: Option<string>): (s: Style)
  {
    if focused.None? || focused == Some(p.kepoi_name) then Style(p.planetColor, 1.0, p.starColor, 1.0, Pulsing)
    else Style(p.planetColor, 1.0, GreyStar, 0.0, Fixed(0.05))
  }

  /** Styling classification: planets always stay visible in their own colour, and a
      star is shown exactly when nothing is focused or its own system is. */
  lemma FocusStyleSpec(p: VisualizationParams, focused: Option<string>)
    ensures FocusStyle(p, focused).planetColor == p.planetColor && FocusStyle(p, focused).planetOpacity == 1.0
    ensures FocusStyle(p, focused).starOpacity == 1.0 <==> focused.None? || focused.value == p.kepoi_name
    ensures FocusStyle(p, focused).starOpacity == 1.0 ==>
              FocusStyle(p, focused).starColor == p.starColor && FocusStyle(p, focused).orbit.Pulsing?
    ensures FocusStyle(p, focused).starOpacity != 1.0 ==>
              FocusStyle(p, focused) == Style(p.planetColor, 1.0, GreyStar, 0.0, Fixed(0.05))
  {
  }
}

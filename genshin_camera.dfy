/** The third-person follow camera of `GenshinCameraController`: each render tick it
    turns its orbit by the mouse, places itself behind the target at the current
    zoom distance, pulls in front of any obstacle in between, eases towards that
    spot, and makes the target translucent while it is too close; each physics tick
    it zooms with the scroll wheel. */
module GenshinCamera {
  import opened Wrappers
  import opened Vector3
  import Mathf

  /** An opaque handle to a Unity material; only its identity matters here. */
  datatype Material = Material(handle: nat)

  /** The layer mask handed to the physics engine to say which layers are obstacles. */
  type LayerMask = int

  /** What `Physics.Linecast` reports about the first obstacle it meets. */
  datatype RaycastHit = RaycastHit(point: Vec3, normal: Vec3)

  /** The two orbit angles, in degrees: `yaw` is the field `angle` (around the
      target), `pitch` the field `height` (above it). */
  datatype Orbit = Orbit(yaw: real, pitch: real)

  /** How far in front of an obstacle's surface, along its normal, the camera stops. */
  const SkinOffset: real := 0.1

  /** One orbit step of `LateUpdate`: the yaw grows by the horizontal delta with no
      bound and no wrapping; the pitch drops by the vertical delta and is clamped
      into `[minAngle, maxAngle]`. Both deltas are already scaled by `rotateSpeed`. */
  function OrbitStep(o: Orbit, horizontal: real, vertical: real, minAngle: real, maxAngle: real): (r: Orbit)
    ensures r.yaw == o.yaw + horizontal
    ensures minAngle <= maxAngle ==> minAngle <= r.pitch <= maxAngle
    ensures minAngle <= o.pitch - vertical <= maxAngle ==> r.pitch == o.pitch - vertical
    ensures o.pitch - vertical < minAngle ==> r.pitch == minAngle
    ensures minAngle <= o.pitch - vertical && maxAngle < o.pitch - vertical ==> r.pitch == maxAngle
  {
    Orbit(o.yaw + horizontal, Mathf.Clamp(o.pitch - vertical, minAngle, maxAngle))
  }

  /** One zoom step of `FixedUpdate`: the distance drops by the scaled scroll delta
      and is clamped into `[minDistance, maxDistance]`. Scrolling forward (a positive
      delta) never moves the camera out, scrolling back never moves it in. */
  function ZoomStep(distance: real, zoom: real, minDistance: real, maxDistance: real): (r: real)
    ensures minDistance <= maxDistance ==> minDistance <= r <= maxDistance
    ensures minDistance <= distance - zoom <= maxDistance ==> r == distance - zoom
    ensures distance - zoom < minDistance ==> r == minDistance
    ensures minDistance <= distance - zoom && maxDistance < distance - zoom ==> r == maxDistance
    ensures minDistance <= distance <= maxDistance && 0.0 <= zoom ==> r <= distance
    ensures minDistance <= distance <= maxDistance && zoom <= 0.0 ==> distance <= r
  {
    Mathf.Clamp(distance - zoom, minDistance, maxDistance)
  }

  /** The spot the camera wants: `distance` units back from the target along the
      rotated forward direction. */
  function DesiredPosition(targetPosition: Vec3, forward: Vec3, distance: real): Vec3
  {
    Sub(targetPosition, Scale(forward, distance))
  }

  /** The desired spot lies on the sphere of radius `distance` around the target when
      the forward direction has unit length (a rotation of `Vector3.forward` does),
      and looking along `forward` from it leads back to the target. */
  lemma DesiredPositionOnOrbit(targetPosition: Vec3, forward: Vec3, distance: real)
    ensures Add(DesiredPosition(targetPosition, forward, distance), Scale(forward, distance)) == targetPosition
    ensures SqrDistance(targetPosition, DesiredPosition(targetPosition, forward, distance))
         == distance * distance * SqrMagnitude(forward)
    ensures SqrMagnitude(forward) == 1.0 ==>
              SqrDistance(targetPosition, DesiredPosition(targetPosition, forward, distance)) == distance * distance
  {
    var p := DesiredPosition(targetPosition, forward, distance);
    SqrDistanceOfOffset(targetPosition, p, forward, distance);
  }

  /** Occlusion: with no obstacle on the segment the candidate is kept exactly; with
      one, the camera goes to the hit point pushed `SkinOffset` along the surface
      normal, whatever the candidate was. */
  function ResolveOcclusion(candidate: Vec3, hit: Option<RaycastHit>): (r: Vec3)
    ensures hit.None? ==> r == candidate
    ensures hit.Some? ==> Sub(r, hit.value.point) == Scale(hit.value.normal, SkinOffset)
  {
    match hit
    case None => candidate
    case Some(h) => Add(h.point, Scale(h.normal, SkinOffset))
  }

  /** With a hit, the resolved position sits on the outer side of the obstacle's
      surface: exactly `SkinOffset` from the hit point along a unit normal, and
      ahead of the surface plane by that much. */
  lemma OcclusionClearsSurface(candidate: Vec3, h: RaycastHit)
    ensures SqrDistance(ResolveOcclusion(candidate, Some(h)), h.point)
         == SkinOffset * SkinOffset * SqrMagnitude(h.normal)
    ensures Dot(Sub(ResolveOcclusion(candidate, Some(h)), h.point), h.normal)
         == SkinOffset * SqrMagnitude(h.normal)
    ensures SqrMagnitude(h.normal) == 1.0 ==>
              SqrDistance(ResolveOcclusion(candidate, Some(h)), h.point) == SkinOffset * SkinOffset
  {
    var r := ResolveOcclusion(candidate, Some(h));
    SqrDistanceOfOffset(r, h.point, h.normal, SkinOffset);
  }

  /** The worked case: target at the origin, candidate 10 units behind, a wall hit
      5 units behind facing the target; the camera settles at 4.9 units behind. */
  lemma OcclusionExample()
    ensures ResolveOcclusion(Vec3(0.0, 0.0, -10.0), Some(RaycastHit(Vec3(0.0, 0.0, -5.0), Vec3(0.0, 0.0, 1.0))))
         == Vec3(0.0, 0.0, -4.9)
  {
  }

  /** Where the camera should aim to be this tick: `distance` back from the target along `forward`, or just in front of the first obstacle `linecast` finds on the way there. */
  function ResolvedSpot(targetPosition: Vec3, forward: Vec3, distance: real,
                        linecast: (Vec3, Vec3, LayerMask) -> Option<RaycastHit>, mask: LayerMask): Vec3
  {
    var candidate := DesiredPosition(targetPosition, forward, distance);
    ResolveOcclusion(candidate, linecast(targetPosition, candidate, mask))
  }

  /** The camera's placement for one render tick: from `from` it moves the fraction
      `Clamp01(t)`, a factor in `[0, 1]`, of the way to the resolved spot, so it
      stays on the segment between them and never passes the spot. A factor at or
      below 0 leaves the camera where it was, one at or above 1 puts it on the spot,
      and the distance to the spot never grows. */
  function PlaceCamera(from: Vec3, targetPosition: Vec3, forward: Vec3, distance: real,
                       linecast: (Vec3, Vec3, LayerMask) -> Option<RaycastHit>, mask: LayerMask,
                       t: real): (r: Vec3)
    ensures Sub(r, from) == Scale(Sub(ResolvedSpot(targetPosition, forward, distance, linecast, mask), from), Mathf.Clamp01(t))
    ensures t <= 0.0 ==> r == from
    ensures 1.0 <= t ==> r == ResolvedSpot(targetPosition, forward, distance, linecast, mask)
    ensures SqrDistance(r, ResolvedSpot(targetPosition, forward, distance, linecast, mask))
         <= SqrDistance(from, ResolvedSpot(targetPosition, forward, distance, linecast, mask))
  {
    var spot := ResolvedSpot(targetPosition, forward, distance, linecast, mask);
    LerpTowards(from, spot, t);
    LerpNoOvershoot(from, spot, t);
    Lerp(from, spot, t)
  }

  /** The translucency test on the squared camera–target distance: the target turns
      translucent only strictly inside the threshold radius. */
  predicate IsTranslucentAt(sqrDistance: real, threshold: real)
  {
    0.0 < threshold && sqrDistance < threshold * threshold
  }

  /** The squared test decides exactly as the engine's `Vector3.Distance(...) <
      playerTransparencyDistance` does on the true distance `d`: strictly below the
      threshold is translucent, at or above it (the boundary included) is not. */
  lemma TranslucentIffCloser(d: real, threshold: real)
    requires 0.0 <= d
    ensures IsTranslucentAt(d * d, threshold) <==> d < threshold
  {
    Mathf.SquareMonotone(d, threshold);
    if 0.0 <= threshold {
      Mathf.SquareMonotone(threshold, d);
    }
  }

  /** The followed entity: its world position (moved by the host, read here) and the
      material its renderer shows (written here). */
  class Target {
    var position: Vec3
    var material: Material

    constructor (position: Vec3, material: Material)
      ensures this.position == position && this.material == material
    {
      this.position := position;
      this.material := material;
    }
  }

  /** The camera component. The constant fields are the settings the scene
      configures (the component itself never writes them; the constructor lists
      their declared defaults); `distance`, `angle` and `height` are its running
      state and `position` is the camera's own `transform.position`. */
  class GenshinCameraController {
    const target: Target
    const maxDistance: real
    const minDistance: real
    const moveSpeed: real
    const rotateSpeed: real
    const obstacleMask: LayerMask
    const maxAngle: real
    const minAngle: real
    const playerTransparencyDistance: real
    const translucentMaterial: Material
    /** `None` until `Start` has cached the target's material. */
    var originalMaterial: Option<Material>
    var distance: real
    var angle: real
    var height: real
    const zoomSpeed: real
    var position: Vec3

    /** The component as the scene configures it. The settings are taken as given;
        the component declares the defaults `maxDistance = 10`, `minDistance = 2`,
        `moveSpeed = 10`, `rotateSpeed = 5`, `maxAngle = 80`, `minAngle = -20`,
        `playerTransparencyDistance = 1` and `zoomSpeed = 7`. The running state
        starts at the same fixed values whatever the settings are, so the starting
        `distance` lies in `[minDistance, maxDistance]` only when that range
        contains 10. */
    constructor (target: Target, maxDistance: real, minDistance: real, moveSpeed: real,
                 rotateSpeed: real, obstacleMask: LayerMask, maxAngle: real, minAngle: real,
                 playerTransparencyDistance: real, translucentMaterial: Material, zoomSpeed: real,
                 position: Vec3)
      ensures this.target == target && this.obstacleMask == obstacleMask
      ensures this.translucentMaterial == translucentMaterial && this.position == position
      ensures this.maxDistance == maxDistance && this.minDistance == minDistance
      ensures this.moveSpeed == moveSpeed && this.rotateSpeed == rotateSpeed && this.zoomSpeed == zoomSpeed
      ensures this.maxAngle == maxAngle && this.minAngle == minAngle
      ensures this.playerTransparencyDistance == playerTransparencyDistance
      ensures originalMaterial == None
      ensures distance == 10.0 && angle == 45.0 && height == 5.0
      ensures minDistance <= 10.0 <= maxDistance <==> minDistance <= distance <= maxDistance
      ensures minAngle <= 5.0 <= maxAngle <==> minAngle <= height <= maxAngle
    {
      this.target := target;
      this.maxDistance := maxDistance;
      this.minDistance := minDistance;
      this.moveSpeed := moveSpeed;
      this.rotateSpeed := rotateSpeed;
      this.obstacleMask := obstacleMask;
      this.maxAngle := maxAngle;
      this.minAngle := minAngle;
      this.playerTransparencyDistance := playerTransparencyDistance;
      this.translucentMaterial := translucentMaterial;
      this.zoomSpeed := zoomSpeed;
      originalMaterial := None;
      distance := 10.0;
      angle := 45.0;
      height := 5.0;
      this.position := position;
    }

    /** Caches the material the target's renderer shows at start-up. */
    method Start()
      modifies this`originalMaterial
      ensures originalMaterial == Some(target.material)
    {
      originalMaterial := Some(target.material);
    }

    /** One render tick, in the order the engine's `LateUpdate` runs its three
        phases: orbit by the mouse, move towards the resolved spot, then pick the
        target's material. `mouseX` and `mouseY` are the raw mouse axes, `deltaTime`
        the frame time, `rotatedForward(pitch, yaw)` stands for
        `Quaternion.Euler(pitch, yaw, 0) * Vector3.forward`, and
        `linecast(from, to, mask)` for `Physics.Linecast`. Only the orbit angles, the
        camera position and the target's material change; `distance` does not. */
    method LateUpdate(mouseX: real, mouseY: real, deltaTime: real,
                      rotatedForward: (real, real) -> Vec3,
                      linecast: (Vec3, Vec3, LayerMask) -> Option<RaycastHit>)
      requires originalMaterial.Some?
      modifies this`angle, this`height, this`position, target`material
      ensures Orbit(angle, height)
           == OrbitStep(Orbit(old(angle), old(height)), mouseX * rotateSpeed, mouseY * rotateSpeed, minAngle, maxAngle)
      ensures angle == old(angle) + mouseX * rotateSpeed
      ensures minAngle <= maxAngle ==> minAngle <= height <= maxAngle
      ensures distance == old(distance)
      ensures position == PlaceCamera(old(position), target.position, rotatedForward(height, angle), distance,
                                      linecast, obstacleMask, deltaTime * moveSpeed)
      ensures IsTranslucentAt(SqrDistance(position, target.position), playerTransparencyDistance) ==>
                target.material == translucentMaterial
      ensures !IsTranslucentAt(SqrDistance(position, target.position), playerTransparencyDistance) ==>
                target.material == originalMaterial.value
    {
      Rotate(mouseX, mouseY);
      Follow(deltaTime, rotatedForward, linecast);
      UpdateTransparency();
    }

    /** The orbit phase: the mouse deltas, scaled by `rotateSpeed`, turn the yaw
        freely and the pitch within `[minAngle, maxAngle]`. */
    method Rotate(mouseX: real, mouseY: real)
      modifies this`angle, this`height
      ensures Orbit(angle, height)
           == OrbitStep(Orbit(old(angle), old(height)), mouseX * rotateSpeed, mouseY * rotateSpeed, minAngle, maxAngle)
      ensures minAngle <= maxAngle ==> minAngle <= height <= maxAngle
    {
      var horizontal := mouseX * rotateSpeed;
      var vertical := mouseY * rotateSpeed;
      angle := angle + horizontal;
      height := height - vertical;
      height := Mathf.Clamp(height, minAngle, maxAngle);
    }

    /** The follow phase: place the camera on the orbit at `distance`, pull it in
        front of any obstacle, and ease the camera towards that spot. */
    method Follow(deltaTime: real, rotatedForward: (real, real) -> Vec3,
                  linecast: (Vec3, Vec3, LayerMask) -> Option<RaycastHit>)
      modifies this`position
      ensures position == PlaceCamera(old(position), target.position, rotatedForward(height, angle), distance,
                                      linecast, obstacleMask, deltaTime * moveSpeed)
    {
      var forward := rotatedForward(height, angle);
      position := PlaceCamera(position, target.position, forward, distance, linecast, obstacleMask, deltaTime * moveSpeed);
    }

    /** The transparency phase: the target shows `translucentMaterial` while the
        camera is strictly closer than `playerTransparencyDistance`, and its cached
        original material otherwise; the material is written on every tick. */
    method UpdateTransparency()
      requires originalMaterial.Some?
      modifies target`material
      ensures IsTranslucentAt(SqrDistance(position, target.position), playerTransparencyDistance) ==>
                target.material == translucentMaterial
      ensures !IsTranslucentAt(SqrDistance(position, target.position), playerTransparencyDistance) ==>
                target.material == originalMaterial.value
    {
      var playerSqrDistance := SqrDistance(position, target.position);
      if IsTranslucentAt(playerSqrDistance, playerTransparencyDistance) {
        target.material := translucentMaterial;
      } else {
        target.material := originalMaterial.value;
      }
    }

    /** One physics tick: zooms by the raw scroll-wheel axis `scroll`. Only
        `distance` changes. */
    method FixedUpdate(scroll: real)
      modifies this`distance
      ensures distance == ZoomStep(old(distance), scroll * zoomSpeed, minDistance, maxDistance)
      ensures minDistance <= maxDistance ==> minDistance <= distance <= maxDistance
    {
      var zoom := scroll * zoomSpeed;
      distance := distance - zoom;
      distance := Mathf.Clamp(distance, minDistance, maxDistance);
    }
  }

  // Properties over many ticks.

  /** The orbit after a run of render ticks, each given by its scaled
      (horizontal, vertical) deltas. */
  function OrbitAfter(o: Orbit, moves: seq<(real, real)>, minAngle: real, maxAngle: real): Orbit
    decreases |moves|
  {
    if moves == [] then o
    else OrbitAfter(OrbitStep(o, moves[0].0, moves[0].1, minAngle, maxAngle), moves[1..], minAngle, maxAngle)
  }

  function SumHorizontal(moves: seq<(real, real)>): real
    decreases |moves|
  {
    if moves == [] then 0.0 else moves[0].0 + SumHorizontal(moves[1..])
  }

  /** The yaw is never clamped or wrapped: after any run of ticks it is the start
      yaw plus every horizontal delta. */
  lemma {:induction false} OrbitAfterYaw(o: Orbit, moves: seq<(real, real)>, minAngle: real, maxAngle: real)
    ensures OrbitAfter(o, moves, minAngle, maxAngle).yaw == o.yaw + SumHorizontal(moves)
    decreases |moves|
  {
    if moves != [] {
      OrbitAfterYaw(OrbitStep(o, moves[0].0, moves[0].1, minAngle, maxAngle), moves[1..], minAngle, maxAngle);
    }
  }

  /** The pitch stays within `[minAngle, maxAngle]` after every run of at least one
      tick, and after the empty run if it started there. */
  lemma {:induction false} OrbitAfterPitchInRange(o: Orbit, moves: seq<(real, real)>, minAngle: real, maxAngle: real)
    requires minAngle <= maxAngle
    requires moves != [] || minAngle <= o.pitch <= maxAngle
    ensures minAngle <= OrbitAfter(o, moves, minAngle, maxAngle).pitch <= maxAngle
    decreases |moves|
  {
    if moves != [] {
      OrbitAfterPitchInRange(OrbitStep(o, moves[0].0, moves[0].1, minAngle, maxAngle), moves[1..], minAngle, maxAngle);
    }
  }

  /** The distance after a run of physics ticks, each given by its scaled zoom. */
  function ZoomAfter(distance: real, zooms: seq<real>, minDistance: real, maxDistance: real): real
    decreases |zooms|
  {
    if zooms == [] then distance
    else ZoomAfter(ZoomStep(distance, zooms[0], minDistance, maxDistance), zooms[1..], minDistance, maxDistance)
  }

  /** The distance stays within `[minDistance, maxDistance]` after every run of at
      least one tick, and after the empty run if it started there. */
  lemma {:induction false} ZoomAfterInRange(distance: real, zooms: seq<real>, minDistance: real, maxDistance: real)
    requires minDistance <= maxDistance
    requires zooms != [] || minDistance <= distance <= maxDistance
    ensures minDistance <= ZoomAfter(distance, zooms, minDistance, maxDistance) <= maxDistance
    decreases |zooms|
  {
    if zooms != [] {
      ZoomAfterInRange(ZoomStep(distance, zooms[0], minDistance, maxDistance), zooms[1..], minDistance, maxDistance);
    }
  }

  /** The camera position after `n` render ticks that all aim at the same resolved
      spot `c` with the same interpolation factor `t`. */
  function Smoothed(p: Vec3, c: Vec3, t: real, n: nat): Vec3
  {
    if n == 0 then p else Lerp(Smoothed(p, c, t, n - 1), c, t)
  }

  /** After `n` ticks the offset from `c` is the starting offset scaled by
      `(1 - Clamp01(t))^n`, a factor in `[0, 1]`: the camera stays on the segment
      between its start and `c` and never passes `c`. */
  lemma {:induction false} SmoothedTowardCandidate(p: Vec3, c: Vec3, t: real, n: nat)
    ensures Sub(Smoothed(p, c, t, n), c) == Scale(Sub(p, c), Mathf.Pow(1.0 - Mathf.Clamp01(t), n))
    ensures 0.0 <= Mathf.Pow(1.0 - Mathf.Clamp01(t), n) <= 1.0
  {
    var f := 1.0 - Mathf.Clamp01(t);
    Mathf.PowBounds(f, n);
    if n > 0 {
      SmoothedTowardCandidate(p, c, t, n - 1);
      var q := Smoothed(p, c, t, n - 1);
      var k := Mathf.Pow(f, n - 1);
      assert Sub(q, c) == Scale(Sub(p, c), k);
      LerpTowards(q, c, t);
      assert Sub(Smoothed(p, c, t, n), c) == Scale(Scale(Sub(p, c), k), f);
      ScaleScale(Sub(p, c), k, f);
      assert k * f == Mathf.Pow(f, n);
    }
  }

  /** Every tick brings the camera no further from `c`, and strictly closer while it
      has not arrived and the factor is positive. */
  lemma SmoothedCloserEachTick(p: Vec3, c: Vec3, t: real, n: nat)
    ensures SqrDistance(Smoothed(p, c, t, n + 1), c) <= SqrDistance(Smoothed(p, c, t, n), c)
    ensures 0.0 < t && 0.0 < SqrDistance(Smoothed(p, c, t, n), c) ==>
              SqrDistance(Smoothed(p, c, t, n + 1), c) < SqrDistance(Smoothed(p, c, t, n), c)
  {
    LerpNoOvershoot(Smoothed(p, c, t, n), c, t);
  }
}

# Genshin-style follow camera, modelled in Dafny

This project models `GenshinCameraController`, a Unity component that drives a
third-person camera. The camera orbits a target (the player). Each render tick
(`LateUpdate`) it does four things in order:

1. It turns its orbit by the mouse. The yaw `angle` is unbounded. The pitch
   `height` is clamped into `[minAngle, maxAngle]`.
2. It places itself `distance` units behind the target along the rotated forward
   direction. If an obstacle is in the way, it pulls in to just in front of it.
3. It eases towards that spot with `Vector3.Lerp`.
4. It makes the target translucent while the camera is strictly closer than
   `playerTransparencyDistance`. Otherwise it restores the target's original
   material.

Each physics tick (`FixedUpdate`) the scroll wheel zooms the camera. That changes
`distance`, which is clamped into `[minDistance, maxDistance]`.

Layout:

- `wrappers.dfy` — the `Option` type.
- `mathf.dfy` — `Mathf.Clamp` and `Mathf.Clamp01`, exactly as Unity defines
  them, over exact reals.
- `vector3.dfy` — `Vector3` arithmetic and `Vector3.Lerp`, together with the
  lemmas that interpolation stays on the segment and never overshoots.
- `genshin_camera.dfy` — the component itself:
  - a class whose constant fields are the inspector settings and whose mutable
    fields are the running state and the camera position;
  - the pure steps its methods are specified by;
  - lemmas over runs of many ticks.

`LateUpdate` is split into three methods, `Rotate`, `Follow` and
`UpdateTransparency`, one per commented phase of the source. `LateUpdate` calls
them in the source's order.

External services are method parameters:

- The mouse and scroll axes and `Time.deltaTime` are plain `real` parameters.
- `Quaternion.Euler(pitch, yaw, 0) * Vector3.forward` is a function parameter
  `rotatedForward`.
- `Physics.Linecast` is a function parameter `linecast` that returns an optional
  hit.

The component writes the material on every tick; it does not keep an appearance
state and does not write only on a change. This model follows the code.

## Model

| member | source | states |
|---|---|---|
| Mathf.Clamp | Assets/Scripts/GenshinCameraController.cs:67 | With `min <= max` the result lies in `[min, max]`. A value already in range is returned unchanged. The result is always the value or one of the two bounds. |
| Mathf.ClampIsNearest | Assets/Scripts/GenshinCameraController.cs:67 | With a well-formed range, no point of the range is closer to the value than the clamped result, and the result lies on the value's side of every point in the range. |
| Mathf.ClampMonotone | Assets/Scripts/GenshinCameraController.cs:67 | With a well-formed range, clamping preserves order. |
| Mathf.Clamp01 | Assets/Scripts/GenshinCameraController.cs:82 | The factor `Vector3.Lerp` uses lies in `[0, 1]`. It equals `t` inside that range, is 0 below it and is 1 above it. |
| Mathf.PowBounds | Assets/Scripts/GenshinCameraController.cs:82 | Powers of a factor in `[0, 1]` stay in `[0, 1]`, and stay positive when the factor is positive. This bounds the smoothing over many ticks. |
| Vector3.LerpTowards | Assets/Scripts/GenshinCameraController.cs:82 | The new position is the old one moved the fraction `Clamp01(t)` of the way to the goal, so the offset left is `1 - Clamp01(t)` of the old offset in the same direction. A factor at or below 0 stays put; a factor at or above 1 lands on the goal. |
| Vector3.LerpSqrDistances | Assets/Scripts/GenshinCameraController.cs:82 | The squared distance left to the goal is `(1 - s)^2` times the old one, and the squared distance covered is `s^2` times it, where `s = Clamp01(t)`. |
| Vector3.LerpNoOvershoot | Assets/Scripts/GenshinCameraController.cs:82 | Smoothing never takes the camera further from the goal, and it gets strictly closer when it is not already there and the factor is positive. It is never further from the old position than the goal is. |
| GenshinCamera.OrbitStep | Assets/Scripts/GenshinCameraController.cs:59-67 | The yaw becomes exactly the old yaw plus the horizontal delta. The pitch lies in `[minAngle, maxAngle]`. It equals `old pitch - vertical` when that is in range, and otherwise the bound that was crossed. |
| GenshinCamera.ZoomStep | Assets/Scripts/GenshinCameraController.cs:104-108 | The distance lies in `[minDistance, maxDistance]` and equals `old - zoom` when that is in range. Below the range it is exactly `minDistance`, above it exactly `maxDistance`. From an in-range distance, a positive zoom never moves the camera out and a negative zoom never moves it in. |
| GenshinCamera.DesiredPositionOnOrbit | Assets/Scripts/GenshinCameraController.cs:70-71 | The candidate plus `forward * distance` gives back the target. Its squared distance from the target is `distance^2` times the squared length of `forward`, which is `distance^2` for a unit direction. |
| GenshinCamera.ResolveOcclusion | Assets/Scripts/GenshinCameraController.cs:74-79 | With no hit, the candidate is kept exactly. With a hit, the result minus the hit point is `normal * 0.1`, whatever the candidate was. |
| GenshinCamera.OcclusionClearsSurface | Assets/Scripts/GenshinCameraController.cs:78 | After a hit, the camera is `0.1` from the hit point along the normal: at squared distance `0.01` for a unit normal, and in front of the surface plane. |
| GenshinCamera.OcclusionExample | Assets/Scripts/GenshinCameraController.cs:74-79 | A candidate 10 units behind with a wall hit 5 units behind, facing the target, resolves to 4.9 units behind. |
| GenshinCamera.PlaceCamera | Assets/Scripts/GenshinCameraController.cs:70-82 | One tick's placement moves the camera the fraction `Clamp01(t)` of the way from its old position to the resolved spot. It therefore stays on the segment between them and never passes the spot. A factor at or below 0 keeps the old position, a factor at or above 1 reaches the spot, and the distance to the spot never grows. |
| GenshinCamera.TranslucentIffCloser | Assets/Scripts/GenshinCameraController.cs:88-89 | The squared-distance test is translucent exactly when the true distance is strictly below the threshold. A distance equal to the threshold is not translucent. |
| GenshinCamera.Target.constructor | Assets/Scripts/GenshinCameraController.cs:6 | The followed target starts with the given position and material. |
| GenshinCamera.GenshinCameraController.constructor | Assets/Scripts/GenshinCameraController.cs:6-48 | The settings are the values the scene configures. The state starts at distance 10, angle 45 and height 5, whatever the settings are. No original material is cached yet. The starting distance is in `[minDistance, maxDistance]` exactly when that range contains 10, and the starting height is in `[minAngle, maxAngle]` exactly when that range contains 5. |
| GenshinCamera.GenshinCameraController.Start | Assets/Scripts/GenshinCameraController.cs:50-54 | Caches the target's current material as the original one, and changes nothing else. |
| GenshinCamera.GenshinCameraController.LateUpdate | Assets/Scripts/GenshinCameraController.cs:56-99 | The orbit is `OrbitStep` of the old orbit by the scaled mouse deltas, with the yaw exactly old plus delta and the pitch in range. `distance` does not change. The position is `PlaceCamera` from the old position. The material is translucent exactly when the new squared camera–target distance passes the threshold test, and the cached original otherwise. Only these fields change. |
| GenshinCamera.GenshinCameraController.Rotate | Assets/Scripts/GenshinCameraController.cs:58-67 | Only the angles change, to `OrbitStep` of the old ones by the mouse deltas scaled by `rotateSpeed`. The pitch ends in `[minAngle, maxAngle]`. |
| GenshinCamera.GenshinCameraController.Follow | Assets/Scripts/GenshinCameraController.cs:69-82 | Only the camera position changes, to `PlaceCamera` with the direction for the current angles and with factor `deltaTime * moveSpeed`. |
| GenshinCamera.GenshinCameraController.UpdateTransparency | Assets/Scripts/GenshinCameraController.cs:87-98 | Only the target's material is written, on every tick. It becomes the translucent material when the camera is strictly within the threshold and the cached original otherwise, whatever the material was before. |
| GenshinCamera.GenshinCameraController.FixedUpdate | Assets/Scripts/GenshinCameraController.cs:101-109 | Only `distance` changes, to `ZoomStep` of the old distance by `scroll * zoomSpeed`, and it ends in `[minDistance, maxDistance]`. |
| GenshinCamera.OrbitAfterYaw | Assets/Scripts/GenshinCameraController.cs:63 | Over any run of render ticks, the yaw is the start yaw plus the sum of all horizontal deltas; it is never clamped or wrapped. |
| GenshinCamera.OrbitAfterPitchInRange | Assets/Scripts/GenshinCameraController.cs:64-67 | Over any non-empty run of render ticks, or an empty run from an in-range pitch, the pitch stays in `[minAngle, maxAngle]`. |
| GenshinCamera.ZoomAfterInRange | Assets/Scripts/GenshinCameraController.cs:107-108 | Over any non-empty run of physics ticks, or an empty run from an in-range distance, the distance stays in `[minDistance, maxDistance]`. |
| GenshinCamera.SmoothedTowardCandidate | Assets/Scripts/GenshinCameraController.cs:82 | After `n` ticks aimed at a fixed spot, the offset from the spot is the starting offset scaled by `(1 - Clamp01(t))^n`, a factor in `[0, 1]`. |
| GenshinCamera.SmoothedCloserEachTick | Assets/Scripts/GenshinCameraController.cs:82 | Over ticks aimed at a fixed spot, every tick brings the camera no further from it, and strictly closer while it has not arrived and the factor is positive. |

## Left out

- `Quaternion.Euler` and the rotation applied to `Vector3.forward` (lines 70–71) are trigonometry. They are a function parameter `rotatedForward(pitch, yaw)`, and nothing is assumed about it except where a lemma says "for a unit direction".
- `transform.LookAt(target)` (line 85) sets only the camera's orientation. Orientation is not part of the model.
- The square root in `Vector3.Distance` (line 88) is not modelled. The test compares squared distances, and `TranslucentIffCloser` proves that this decides exactly as the distance comparison does.
- `Physics.Linecast` (line 75) is a function parameter that returns `None` or the hit point and normal. The physics engine is not modelled.
- `Input.GetAxis` (lines 59–60, 104) and `Time.deltaTime` (line 82) are method parameters.
- Renderers and materials (lines 53, 92, 97) are opaque handles. `GetComponent<Renderer>().material` is a `material` field of the target.
- The inspector settings are `const` fields. The constructor takes them from the scene, and its doc comment lists the declared defaults. Nothing in the component writes them, and changes made by other scripts or the editor at run time are not modelled.
- GenshinCamera.GenshinCameraController.constructor: the starting distance of 10 is not clamped. With a configured range that excludes 10, the distance stays out of range until the first `FixedUpdate`, and `LateUpdate` places the camera at that distance. The model reproduces this and promises range only when the range contains 10.
- Unity's scheduling of `Start`, `LateUpdate` and `FixedUpdate` is not modelled. Each is an independent call. `LateUpdate` requires that `Start` has cached the original material, as Unity guarantees by running `Start` first.
- `float` arithmetic and its rounding are exact `real` arithmetic. The constant `0.1f` is the exact real 0.1.
- A missing `target` or renderer is not modelled. It would be an engine exception rather than logic of the component.
- SmoothedCloserEachTick: strict progress is stated as a positive squared distance to the spot, rather than the position differing from the spot. The model proves no limit or convergence, only the closed form and the monotone decrease.

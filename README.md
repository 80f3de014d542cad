# Ray tracer core, modelled in Dafny

This models the logic of an early snapshot of a small C ray tracer: the
4-slot vector algebra (`src/rt_math.c`), the scene of camera and spheres with
its pixel/world mapping and nearest-hit ray trace (`src/scene.c`), the frame
buffer with its dirty flag and strip-wise display flush (`src/canvas.c`), and
the renderer that fills the frame with a horizontal colour ramp
(`src/renderer.c`).

Modules, one per C file, plus a helper module:

- `CTypes` (`ctypes.dfy`): the packed colour type `Color32 = bv32` and
  `Trunc`, the C float-to-integer cast, which truncates toward zero.
- `RtMath` (`rt_math.dfy`): `v4` becomes the datatype `V4` over `real`. Its
  `r, g, b, a` accessors alias `x, y, z, w`, as the union in `src/rt_math.h`
  does. Each function that writes through an output pointer becomes a
  function returning the updated `out`. That is how the "3" variants can be
  stated to keep the fourth slot. `sqrtf` is a parameter `sqrt` that
  `IsSqrt` requires to be an exact square root.
- `Canvas` (`canvas.dfy`): the class `RaytracerCanvas`. It holds the pixels
  in an `array<Color32>` written in place, the `isDirty` flag, and `blits`,
  an append-only log of display requests `(startRow, rowCount)` standing for
  the `XPutImage` calls.
- `Renderer` (`renderer.dfy`): the class `RaytracerRenderer` and the ramp
  colour computation, with `bv32` shifts and masks as in C.
- `Scene` (`scene.dfy`): the class `RaytracerScene`, with a `Camera` value
  and a `seq<Sphere>` that grows by appending. It also holds the ray/sphere
  quadratic, which yields `NoRoots` or `TwoRoots`, and the nearest-hit
  scan. The scan is specified by the function `Scan` and implemented by the
  method `TraceRay` with the C nested loops and the `SPHERE_NULL` sentinel.

In two places this snapshot's code does not do what a ray tracer of this
kind is normally expected to do. The model follows the code:

- A ray tracer normally picks the nearest *non-negative* root. The code
  compares every reported root, negative ones included
  (`src/scene.c:172-186`). `NearestHit` and `ScanFindsNearest` state that.
- A ray of zero length would normally be a miss. In the code,
  `a == 0` makes both roots `0 / 0`, i.e. NaN. No comparison with NaN
  succeeds, so the first sphere wins. This is modelled with `Dist = Num | NaN`
  (`DegenerateRayGivesNaN`, `ScanAllNaN`, `NearestHit`).

## Model

| member | source | states |
|---|---|---|
| RtMath.Init | src/rt_math.c:5-10 | the arguments fill slots 0..3 in order, so `r,g,b,a` and `x,y,z,w` both see them in that order |
| RtMath.Add | src/rt_math.c:12-19 | every one of the four slots is the sum of the operands' slots |
| RtMath.Add3 | src/rt_math.c:21-27 | slots 0..2 are the sums; the fourth slot of `out` is kept |
| RtMath.Subtract | src/rt_math.c:29-36 | every one of the four slots is the difference of the operands' slots |
| RtMath.Subtract3 | src/rt_math.c:38-44 | slots 0..2 are the differences; the fourth slot of `out` is kept |
| RtMath.Scalar | src/rt_math.c:46-53 | every slot is scaled by the factor |
| RtMath.Scalar3 | src/rt_math.c:55-61 | slots 0..2 are scaled; the fourth slot of `out` is kept |
| RtMath.AddSubtractRoundTrip | src/rt_math.c:12-44 | subtracting what was added gives back the original, for both the 4- and 3-slot forms |
| RtMath.ScalarRoundTrip | src/rt_math.c:46-61 | scaling by `s` and then by `1/s` is the identity, for both forms |
| RtMath.ThreeVariantsIgnoreW | src/rt_math.c:21-135 | `add3`, `subtract3`, `scalar3`, `cross3`, `dot3`, `magnitude3_squared`, `magnitude3` and `distance3` read only the first three slots of their inputs |
| RtMath.MagnitudeSquared | src/rt_math.c:95-99 | non-negative, and zero exactly for the zero vector |
| RtMath.Magnitude3Squared | src/rt_math.c:101-105 | non-negative, and zero exactly when `x, y, z` are |
| RtMath.Magnitude | src/rt_math.c:83-87 | non-negative, and its square is the squared magnitude |
| RtMath.Magnitude3 | src/rt_math.c:89-93 | non-negative, and its square is the 3-slot squared magnitude |
| RtMath.Dot | src/rt_math.c:107-111 | `dot` is `dot3` plus the product of the fourth slots; of a vector with itself it is the squared magnitude |
| RtMath.Dot3 | src/rt_math.c:113-117 | `dot3` is 0 when either argument is zero in its first three slots |
| RtMath.DotSelfIsMagnitudeSquared | src/rt_math.c:95-117 | `dot(v,v)` is the squared magnitude, `dot3(v,v)` the 3-slot one, and they differ by `w*w` |
| RtMath.DotSymmetric | src/rt_math.c:107-117 | `dot` and `dot3` are symmetric in their arguments |
| RtMath.Cross3 | src/rt_math.c:119-125 | the result has zero `dot3` with both arguments; the fourth slot of `out` is kept |
| RtMath.Cross3Self | src/rt_math.c:119-125 | the cross product of a vector with itself has zero `x, y, z` |
| RtMath.Cross3AntiCommutative | src/rt_math.c:119-125 | swapping the arguments negates the result |
| RtMath.Cross3IntoLhsDiffers | src/rt_math.c:119-125 | writing the result over `lhs` slot by slot gives a wrong second slot, off by `(lhs.x - o.x) * rhs.z`; the slot-order run is `Cross3IntoLhs` |
| RtMath.Normal | src/rt_math.c:63-71 | for a vector with non-zero `x, y, z`: the result has unit length, keeps the fourth slot of `out`, and times the magnitude gives the input back |
| RtMath.NormalInPlaceIsNormal | src/rt_math.c:63-71 | the magnitude is taken before any slot is written, so overwriting `v` slot by slot (as `vec4_direction` does) gives the same result as a separate `out` |
| RtMath.Direction | src/rt_math.c:73-81 | for distinct points: unit length, fourth slot of `out` kept, and scaled by the distance it is `rhs - lhs` |
| RtMath.Distance3 | src/rt_math.c:127-135 | non-negative, and its square is the 3-slot squared length of `rhs - lhs` |
| RtMath.Distance3IsMagnitudeOfDifference | src/rt_math.c:127-135 | the distance is `magnitude3` of the difference |
| RtMath.Distance3Symmetric | src/rt_math.c:127-135 | the distance is symmetric in its arguments |
| CTypes.Trunc | src/scene.c:93-104 | the `(i32)` cast truncates toward zero: the result lies within 1 of the value, on the side of zero |
| Scene.RaytracerScene.Init | src/scene.c:38-52 | the viewport is left −1, right 1, top 1, bottom −1, front 1, back front+100, fov 90; the camera is at the origin; no spheres |
| Scene.RaytracerScene.SetCameraViewport | src/scene.c:54-65 | stores bounds, front and fov; back is front + distance; the camera position and the spheres are unchanged |
| Scene.RaytracerScene.GetCameraPosition | src/scene.c:67-71 | returns the camera position and changes nothing |
| Scene.RaytracerScene.CreateSphere | src/scene.c:107-127 | returns the previous count; the list grows by exactly the new sphere (given position, radius, colour); earlier spheres and the camera are unchanged |
| Scene.RaytracerScene.CanvasToWorld | src/scene.c:73-85 | the fourth slot of `out` is not written |
| Scene.RaytracerScene.CanvasOrigin | src/scene.c:80-84 | pixel (0,0) maps to `(left + pos.x, -bottom + pos.y)`; the depth is `front + pos.z` for every pixel |
| Scene.RaytracerScene.CanvasToWorldAffine | src/scene.c:80-83 | one pixel right adds `(right-left)/width` to world x; one pixel down subtracts `(top-bottom)/height` from world y; neither step moves the other coordinate |
| Scene.RaytracerScene.WorldToCanvasX | src/scene.c:87-95 | the returned column is `(world.x - left) * width / (right - left)` truncated toward zero: within 1 of that value, on the side of zero |
| Scene.RaytracerScene.WorldToCanvasY | src/scene.c:97-105 | the returned row is `-(world.y + bottom) * height / (top - bottom)` truncated toward zero: within 1 of that value, on the side of zero |
| Scene.RaytracerScene.WorldToCanvasOffset | src/scene.c:80-104 | mapping a pixel to the world and back, before truncation, gives the pixel shifted by the camera position measured in pixels (`+pos.x` in x, `-pos.y` in y), since the inverse maps ignore the position |
| Scene.RaytracerScene.WorldToCanvasRoundTrip | src/scene.c:80-104 | with the camera at x = y = 0, `world_to_canvas_x/y` of the forward map return the original pixel |
| Scene.Coefficients | src/scene.c:135-143 | `a = D·D` is never negative, and is 0 exactly for a ray of zero length |
| Scene.RaySphere | src/scene.c:129-157 | no roots exactly when the discriminant `b² − 4ac` is negative |
| Scene.Solve | src/scene.c:145-156 | no roots exactly when the discriminant is negative |
| Scene.RootsSolveQuadratic | src/scene.c:141-156 | for a ray of non-zero length with an exact sqrt, `a > 0`, both roots are numbers solving `a t² + b t + c = 0`, and `t1 <= t0` |
| Scene.DegenerateRayGivesNaN | src/scene.c:141-156 | a ray of zero length (`a = 0`) gets NaN, NaN from every sphere, and only such a ray does; any other ray gets no roots or two numbers |
| Scene.CoefficientsOfRay | src/scene.c:135-143 | `a` is positive for a ray of non-zero length; `a` and `b` are 0 for a ray of zero length |
| Scene.QuadraticRoot | src/scene.c:152-154 | the quadratic formula: either root solves the quadratic |
| Scene.Scan | src/scene.c:166-188 | the reference for the two loops: when it ends on a sphere, that sphere's index is in range and the distance held is one of its reported roots |
| Scene.ScanHitsIff | src/scene.c:166-188 | the scan ends with a sphere iff some sphere reported roots; that sphere reported roots, and the distance it holds is one of them |
| Scene.ScanFindsNearest | src/scene.c:172-186 | with numeric roots, the final distance is ≤ every reported root, negatives included, and every sphere before the winner reported only strictly larger roots, so ties go to the lowest index |
| Scene.ScanAllNaN | src/scene.c:172-186 | when every sphere reports NaN, NaN the first sphere wins |
| Scene.RootsOfCases | src/scene.c:166-170 | the roots scanned are all numbers for a ray of non-zero length, and all NaN for a ray of zero length |
| Scene.NearestHit | src/scene.c:159-198 | the scan's result for the scene's spheres, combining the facts above: a hit iff some sphere has roots; nearest root with first-index tie-break for real rays; the first sphere with NaN for a ray of zero length |
| Scene.RaytracerScene.TraceRay | src/scene.c:159-198 | the nested loops over `closestSphereId` / `closestDistance` compute `Scan`: returns true iff the scan ends with a sphere, then the colour is that sphere's; when it returns false `outColor` comes back unchanged |
| Canvas.IndexIsProduct | src/canvas.c:78 | the row-major index of `(x, y)` is `width*y + x` |
| Canvas.IndexInjective | src/canvas.c:78 | distinct pixels of the canvas have distinct buffer indices |
| Canvas.IndexInRange | src/canvas.c:78 | every pixel's index lies in `[0, width*height)` |
| Canvas.IndexCovers | src/canvas.c:66-68 | every buffer entry is the index of exactly the pixel `(i % width, i / width)` |
| Canvas.RaytracerCanvas.Create | src/canvas.c:31-73 | the buffer is fresh, zeroed and `width*height` entries long; `size` is `width*height*4`; the canvas is dirty; no blits |
| Canvas.RaytracerCanvas.PutPixel | src/canvas.c:75-80 | the buffer is the old one updated at `width*y + x` only; the canvas is marked dirty; no blits |
| Canvas.RaytracerCanvas.PutSquare | src/canvas.c:82-98 | every pixel of the rectangle holds `c` and every other pixel is unchanged, so a rectangle with non-positive width or height writes nothing; the canvas is marked dirty either way |
| Canvas.RaytracerCanvas.GetWidth | src/canvas.c:106-110 | returns the stored width and changes nothing |
| Canvas.RaytracerCanvas.GetHeight | src/canvas.c:112-116 | returns the stored height and changes nothing |
| Canvas.RaytracerCanvas.GetBuffer | src/canvas.c:118-123 | returns the buffer and marks the canvas dirty |
| Canvas.RaytracerCanvas.Flip | src/canvas.c:125-152 | on a dirty canvas, appends `FlipSchedule(height)` to the blit log and clears the flag; on a clean one, changes nothing |
| Canvas.StripCount | src/canvas.c:132 | the number of loop turns: the least `n` with `20*n >= height` |
| Canvas.FlipSchedule | src/canvas.c:132-148 | the whole request sequence of a flush: `StripCount(height)` 20-row strips from rows 0, 20, 40, …, then one more request iff `height % 20 > 0` |
| Canvas.StripsAreMultiplesBelowHeight | src/canvas.c:132-137 | one 20-row request for each start row 0, 20, 40, … below the height, in order, and for no other row |
| Canvas.FlipScheduleRemainder | src/canvas.c:139-148 | after the strips comes one more request iff `height % 20 > 0`: `height % 20` rows from row `height - height%20 - 1` |
| Canvas.FlipScheduleOvershoots | src/canvas.c:132-148 | when the height is not a multiple of 20: the last strip already runs past the bottom, the extra request ends one row above the bottom, and for heights under 20 it starts at row −1 |
| Renderer.RaytracerRenderer.Init | src/renderer.c:11-18 | stores the canvas and nothing else |
| Renderer.Deltas | src/renderer.c:26-30 | `dR = 255`, `dG = 0`, `dB = 0`; the start colour's red and green bytes are 0 and its blue byte is 0xFF |
| Renderer.HorizontalFraction | src/renderer.c:36 | `horiPerc` is in `(0, 1]` and is 1 at the last column |
| Renderer.Red | src/renderer.c:38-39 | the red byte is in `[0, 255]` and is 255 at `x = width-1` |
| Renderer.Green | src/renderer.c:40 | the green byte is 0 |
| Renderer.Blue | src/renderer.c:41 | the blue byte is 255 |
| Renderer.ToByte | src/renderer.c:38-41 | the byte holding a value in `[0, 255]` reads back as that value |
| Renderer.PackChannels | src/renderer.c:38-41 | packing puts red, green and blue in bits 16-23, 8-15 and 0-7 and sets nothing above bit 23 |
| Renderer.PackBytes | src/renderer.c:38-41 | the same, for bytes shifted and or-ed as `bv32` |
| Renderer.ChannelsDetermine | src/renderer.c:38-41 | a colour below `0x1000000` is determined by its three channel bytes |
| Renderer.RampColor | src/renderer.c:36-41 | the colour written at column `x` has nothing above bit 23 |
| Renderer.RampColorChannels | src/renderer.c:36-41 | every ramp pixel has red byte `Red(x, width)`, green byte 0 and blue byte 0xFF, and is ≤ 0xFFFFFF |
| Renderer.RampEndsAtEndColor | src/renderer.c:26-41 | the last column is exactly the end colour 0xFF00FF |
| Renderer.RaytracerRenderer.Draw | src/renderer.c:20-44 | every pixel `(x, y)` of the canvas is written with the ramp colour of its column, so all rows are identical; the canvas is dirty iff it was already or it has a pixel; no blits |

## Left out

- The X11 work of `canvas_create` and `canvas_flip` (display, window, pixmap, `XImage`, the `XPutImage` calls themselves) is display plumbing. Each request is logged as a `Blit`. `canvas_get_window` only returns the X11 window and is not modelled.
- `src/main.c` (the event loop, key handling, sleeping, and the intensity clamp tied to X events) is not part of this model.
- `float` arithmetic is exact `real` arithmetic: no IEEE-754 rounding, overflow or infinities. `sqrtf` is an exact square root given as a parameter. NaN appears only for the `0 / 0` of a ray of zero length in `_scene_get_ray_sphere_intersection`; the other divisions by zero are excluded by preconditions, listed below.
- RtMath.Normal, RtMath.Direction: require a vector that is non-zero in its first three slots (for `Direction`, two points that differ). In C that input divides 0 by 0 and yields NaN in x, y and z; avoiding it is the callers' duty. Nothing in this snapshot calls either function.
- Scene.Solve: for `a = 0` it returns NaN, NaN, which is what C gives only when `b` is 0 too. For `a = 0` and `b != 0`, where C gives `0 / 0` in one root and an infinity in the other, it is not faithful. `Coefficients` never produces that input (`CoefficientsOfRay`), so `RaySphere` is unaffected.
- Scene.RaytracerScene.CanvasToWorld: requires a canvas of non-zero width and height. In C a zero size divides by zero and yields IEEE infinities or NaN.
- Scene.RaytracerScene.WorldToCanvasX, Scene.RaytracerScene.WorldToCanvasY: require `right != left` and `top != bottom`. In C those divide by zero, and casting the result to `i32` is undefined.
- CTypes.Trunc: the `(i32)` and `(i16)` casts are truncation toward zero on unbounded integers. An out-of-range float cast, undefined in C, is not modelled.
- Canvas.RaytracerCanvas.Create: `size` and the buffer length are unbounded integers. The `i32` overflow of `width*height*4` for huge canvases is not modelled.
- Canvas.RaytracerCanvas.PutPixel and Canvas.RaytracerCanvas.PutSquare: in-bounds coordinates are preconditions, because the C code does no bounds checking and an out-of-range write is undefined.
- `malloc`, `calloc` and `realloc` are allocation only. The sphere array is a growing `seq`, and its `i32` count is unbounded.
- Scene.RaytracerScene.Init: `scene_init` never initialises `sphereCount` or `spheres`. The model starts from an empty sphere list.
- Lights, pixel density, textures, overlays and screenshots are declared in the headers but have no bodies in this snapshot, so they are not modelled. The same goes for the text functions of `src/canvas.h`.
- The mismatched arities between headers and definitions (`scene_trace_ray`, `renderer_draw`) are not logic. The model follows the definitions.
- Renderer.Red: the float product `dR * horiPerc` is computed exactly over reals before truncation. Near a column where `255*(x+1)/width` is an integer, float rounding could give a byte one lower than the model's.
- Canvas.Index: the buffer index `width*y + x` is defined by recursion on `y`, and `IndexIsProduct` proves it equal to the product.
- Scene.RaytracerScene.TraceRay: C leaves `closestDistance` uninitialised until the first root. The model starts it at NaN, and it is never read while `closestSphereId` is `SPHERE_NULL`.

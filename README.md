# 3D studio editor widget: keyboard state machine and vertex deformation

This project models the two pieces of sequential logic in a Canva app that
lets a user set up a 3D primitive and export a rendered image of it.

- The main studio (`src/app.tsx`) keeps about two dozen settings. A keyboard
  handler moves them step by step. `c` and `m` cycle the shape and the
  material through fixed lists. `q`/`a`, `w`/`s` and `e`/`d` turn the X, Y
  and Z rotations by plus or minus 5 degrees, modulo 360. `r` restores the
  defaults and `enter` starts an export. Module `StudioState` models the
  settings as a datatype, and each key as a pure transition from the old
  state to the new one, as the handler's `prev => next` updates are.
- When a mesh is built, a loop rewrites the position buffer in place. First
  it tapers each vertex by its normalised height in the undeformed bounding
  box, then it adds sinusoidal noise, then it twists the vertex about the
  vertical axis. Module `StudioDeform` models this as a method over an
  `array<Vec3>`. The method is proved equal to a specification function of
  the undeformed buffer.
- The smaller studio (`examples/mini_3d_studio/app.tsx`) twists and then
  uniformly "fattens" each vertex. It also maps a camera angle to a camera
  position and a shape name to a base geometry. These are in module
  `MiniStudio`.
- Module `Vectors` holds the vertex type, the twist both studios share, and
  the trigonometry.

JavaScript doubles are modelled as exact `real`s. `Math.sin` and `Math.cos`
are passed in as a `Trig` value, a pair of functions. The proofs use only
three facts about them, stated in `ValidTrig`: sin 0 = 0, cos 0 = 1, and
sin² + cos² = 1. `Math.PI` is the decimal 3.141592653589793. Rotations are
whole degrees, because their sliders use the default step of 1 and the keys
move by 5. JavaScript's `%` keeps the sign of the dividend, and is written
out as `JsRem`.

## Model

| member | source | states |
|---|---|---|
| `Vectors.TwistAngle` | src/app.tsx:341 | the twist angle is zero for a vertex at height 0 or for a twist of 0 degrees |
| `Vectors.Twist` | src/app.tsx:341-347 | the twist never changes a vertex's y |
| `Vectors.RotationKeepsRadius` | src/app.tsx:344-345 | the 2D rotation formula keeps x² + z² whenever sin² + cos² = 1 |
| `Vectors.TwistKeepsRadius` | src/app.tsx:341-347 | the twist keeps each vertex's squared distance from the Y axis |
| `Vectors.TwistNeutral` | src/app.tsx:341-347 | a twist of 0 degrees, or a vertex at y = 0, leaves the vertex unchanged |
| `StudioDeform.YExtentOf` | src/app.tsx:319-321 | the box is empty exactly for an empty buffer; otherwise its bounds enclose every vertex's Y and both are reached by some vertex |
| `StudioDeform.ComputeYExtent` | src/app.tsx:319-321 | one pass over the buffer computes exactly the Y extent of its contents |
| `StudioDeform.NormalizedY` | src/app.tsx:328 | 0 when the box has no positive height; otherwise n·height = y − minY, and n is in [0, 1] for a vertex inside the box |
| `StudioDeform.Taper` | src/app.tsx:330-332 | Y is kept and x² + z² is scaled by the square of 1 − normalizedY·taper |
| `StudioDeform.Noise` | src/app.tsx:334-339 | Y is kept, x and z move by the same amount, and the step is skipped when noise ≤ 0 |
| `StudioDeform.DeformVertex` | src/app.tsx:326-349 | taper, noise and twist together never change a vertex's Y |
| `StudioDeform.DeformAll` | src/app.tsx:319-350 | the deformed buffer has the input's length and each vertex keeps its Y |
| `StudioDeform.Deform` | src/app.tsx:319-351 | the in-place loop leaves the buffer equal to DeformAll of its old contents: the box comes from the undeformed buffer and each index is written once |
| `StudioDeform.TaperNeutralAtBottom` | src/app.tsx:328-332 | at bbox.min.y, or on a mesh with height ≤ 0, normalizedY is 0 and the taper changes nothing |
| `StudioDeform.NoiseAtBottom` | src/app.tsx:328-339 | at bbox.min.y, where the taper does nothing, a positive noise still moves the vertex by sin(2y)·noise·0.2 in x and in z |
| `StudioDeform.NoiseHeightOnly` | src/app.tsx:334-339 | the noise displacement depends only on the raw height: two vertices with the same y move by the same amount |
| `StudioDeform.FullTaperCollapsesTop` | src/app.tsx:328-332 | with taper 1, a vertex at the top of the box has normalizedY 1 and lands on the Y axis |
| `StudioDeform.NeutralVertex` | src/app.tsx:326-349 | with taper = noise = twist = 0 a vertex is unchanged |
| `StudioDeform.NeutralIsIdentity` | src/app.tsx:325-350 | with taper = noise = twist = 0 the whole buffer is unchanged |
| `StudioDeform.DeformRadius` | src/app.tsx:334-347 | the twist keeps the x² + z² that taper and noise produced |
| `StudioDeform.FlatMeshAtGroundUnchanged` | src/app.tsx:319-349 | a flat mesh in the plane y = 0 is unchanged by any taper, noise and twist |
| `MiniStudio.BaseGeometry` | examples/mini_3d_studio/app.tsx:67-85 | the rounded box is chosen exactly for cube and for the shapes without a case; the other four shapes get their own geometries with the listed arguments |
| `MiniStudio.UnhandledShapesFallBackToCube` | examples/mini_3d_studio/app.tsx:83-84 | `text` and `svg` get exactly the cube's geometry |
| `MiniStudio.CameraPosition` | examples/mini_3d_studio/app.tsx:44-54 | isometric-left → (-5,5,5), isometric-right → (5,5,5), top-down → (0,7,2), any other angle keeps the camera at the origin |
| `MiniStudio.Scale` | examples/mini_3d_studio/app.tsx:113 | multiplyScalar multiplies x² + z² by fatten² |
| `MiniStudio.DeformVertex` | examples/mini_3d_studio/app.tsx:103-115 | the output Y is fatten times the input Y |
| `MiniStudio.DeformAll` | examples/mini_3d_studio/app.tsx:100-116 | the buffer keeps its length and each Y is scaled by fatten |
| `MiniStudio.Deform` | examples/mini_3d_studio/app.tsx:98-117 | the in-place loop leaves the buffer equal to DeformAll of its old contents, each index written once |
| `MiniStudio.DeformRadius` | examples/mini_3d_studio/app.tsx:107-113 | twist then fatten multiplies each vertex's x² + z² by fatten² |
| `MiniStudio.NeutralIsIdentity` | examples/mini_3d_studio/app.tsx:104-115 | with twist 0 and fatten 1 the whole buffer is unchanged |
| `StudioState.IndexOf` | src/app.tsx:550 | Array indexOf gives -1 exactly when the value is absent; otherwise it gives the first index holding the value |
| `StudioState.IndexOfDistinct` | src/app.tsx:550 | in a list without repetitions, indexOf gives an element's own index |
| `StudioState.Cycle` | src/app.tsx:549-558 | the next element in the list, the first after the last, and the first for a value not in the list |
| `StudioState.CycleNIndex` | src/app.tsx:547-559 | within one turn, n presses move the list position n places forward, wrapping once |
| `StudioState.FullCycle` | src/app.tsx:547-559 | as many presses as the list is long return to the starting element |
| `StudioState.CycleReachesAll` | src/app.tsx:547-559 | every element of the list is reached from any other in fewer presses than the list is long |
| `StudioState.ListsAreComplete` | src/app.tsx:510-534 | the shape list has 11 entries and the material list 10; each lists every value of its type exactly once |
| `StudioState.JsRem` | src/app.tsx:562 | JavaScript `%`: equals the mathematical remainder for a non-negative dividend, and lies in (-n, 0] for a negative one |
| `StudioState.JsRemOdd` | src/app.tsx:562 | JavaScript `%` is odd in its dividend: the remainder of −a is minus the remainder of a |
| `StudioState.RotateUp` | src/app.tsx:560-563 | `(prev + 5) % 360` takes a rotation in [0, 360] into [0, 360), to prev + 5 modulo 360 |
| `StudioState.RotateDown` | src/app.tsx:564-567 | `(prev - 5 + 360) % 360` takes a rotation in [0, 360] into [0, 360), to prev − 5 modulo 360 |
| `StudioState.Step` | src/app.tsx:560-583 | either step of a rotation key, for a rotation in [0, 360], lands in [0, 360) |
| `StudioState.RotationStepsInverse` | src/app.tsx:560-583 | for a rotation in [0, 360), the + 5 and − 5 steps undo each other |
| `StudioState.Reset` | src/app.tsx:642-667 | every setting takes its defaultState value; exportSize and isSceneReady are kept |
| `StudioState.Lower` | src/app.tsx:538 | lower-casing keeps the length, leaves no letter A–Z, turns each A–Z into its lower-case letter and keeps every other character |
| `StudioState.LowerIdempotent` | src/app.tsx:538 | lower-casing twice is the same as lower-casing once |
| `StudioState.LowerOfUpper` | src/app.tsx:538 | upper-casing a key first does not change its lower-case form |
| `StudioState.ParseKey` | src/app.tsx:538-586 | a recognised key's lower-case form is the name of the command it gives |
| `StudioState.ParseKeyExact` | src/app.tsx:538-586 | a key gives a command exactly when its lower-case form is that command's name |
| `StudioState.KeyMatchingIgnoresCase` | src/app.tsx:538 | an upper-cased key is parsed, and acts, exactly like the key itself |
| `StudioState.Apply` | src/app.tsx:543-583 | no command changes exportSize or isSceneReady |
| `StudioState.KeyDown` | src/app.tsx:537-587 | default handling is suppressed exactly for recognised keys, an export starts exactly for enter, and other keys change nothing |
| `StudioState.KeyDownEffect` | src/app.tsx:543-586 | each rotation key changes only its own axis by one step; c and m change only the shape and the material; r resets; enter and other keys change nothing |
| `StudioState.KeyDownKeepsRange` | src/app.tsx:560-583 | keys keep the rotations, twist, taper and noise within their slider ranges |
| `StudioState.ShapeKey` | src/app.tsx:547-552 | `c` advances the shape and changes nothing else |
| `StudioState.MaterialKey` | src/app.tsx:553-559 | `m` advances the material and changes nothing else |
| `StudioState.PressShapeKey` | src/app.tsx:547-552 | n presses of `c` advance the shape n places and change nothing else |
| `StudioState.PressMaterialKey` | src/app.tsx:553-559 | n presses of `m` advance the material n places and change nothing else |
| `StudioState.PressFirst` | src/app.tsx:537-587 | a key sequence is handled as its first key, followed by the rest from the resulting state |
| `StudioState.CyclingKeysWrap` | src/app.tsx:547-559 | `c` goes from tetrahedron to cube and `m` from wireframe to matte |
| `StudioState.ShapeKeyFullTurn` | src/app.tsx:547-552 | 11 presses of `c` return to the starting state |
| `StudioState.MaterialKeyFullTurn` | src/app.tsx:553-559 | 10 presses of `m` return to the starting state |
| `StudioState.ResetAfterAnyKey` | src/app.tsx:543-546 | any key followed by `r` leaves the state that `r` alone would |
| `StudioState.ResetMeshIsUndeformed` | src/app.tsx:642-667 | after a reset, the deformation pass leaves the base mesh unchanged |
| `StudioState.DefaultInRange` | src/app.tsx:50-75 | the default settings lie within the slider ranges |

## Left out

- The React component tree, hooks and effects. Each settings update is
  modelled as a direct transition of the state.
- Everything done by three.js: building renderers and scenes, loading the HDR
  environment, disposing scenes, and rendering. These are foreign library
  calls. The base geometries are named by their constructor arguments only.
- `computeVertexNormals` after each deformation loop. It is library code and
  floating-point normalisation.
- The material `switch` and the geometry `switch` of `src/app.tsx`
  (lines 232-308 and 357-400). They are constant tables of library
  constructors. In the geometry switch every shape has a case.
- The export in `addToCanva`: resizing, rendering, `toDataURL("image/png")`
  and the `addElementAtPoint` host call. `StudioState.KeyDown` records only
  that `enter` requests an export. The mini studio's SVG renderer and
  `XMLSerializer` export are also left out.
- IEEE-754 rounding and the accuracy of `Math.sin`, `Math.cos` and `Math.PI`.
  The reals are exact, trigonometry is an input, and nothing is proved about
  numeric accuracy.
- `StudioState.Lower`: lower-cases only the letters A to Z. This loses
  nothing for key matching. The only non-ASCII characters whose lower case
  contains an ASCII letter are the Kelvin sign (to `k`) and capital I with dot
  (to `i` and a combining dot). Neither produces a key the handler handles.
- Slider and colour widgets. Only their declared ranges are used, in
  `StudioState.InRange`.
- The message catalogue, help page, entry point and locale provider. They
  contain no logic.

## Notes on the source

- The bounding box is computed once, from the undeformed geometry,
  before the loop. This is `geometry.computeBoundingBox()` at line 319 of
  `src/app.tsx`. So no vertex is normalised against a partly deformed box.
- Each render builds a new base geometry, and the loop deforms that geometry
  in place. It is not a separate copy. The model deforms the array it is
  given.
- JavaScript's `shapes.indexOf(prev)` gives -1 for a value not in the list,
  and the next value is then the first one. Every `Shape` and every
  `MaterialType` is in its list (`StudioState.ListsAreComplete`), so this
  case does not arise in the studio.

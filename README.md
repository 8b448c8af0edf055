# Zoom viewer camera

A model of the camera of the zoom viewer (`src/App.tsx`). A camera is a translation `(x, y)` in canvas units plus a uniform scale `z`. The viewer shows one image on a canvas inside a container. Wheel events move the camera:

- a ctrl-wheel zooms around the cursor;
- a shift-wheel pans horizontally;
- a plain wheel pans in both directions.

Two pure functions convert between screen coordinates (pixels from the container's top-left corner) and canvas coordinates. The transform is anchored at the container's centre.

The model has two modules:

- `CameraMath` (`camera_math.dfy`) holds the data model: `Point`, `Camera`, and `Container`, the container reduced to its client width and height. It also holds the initial camera, the two coordinate mappers, the pan operator and the zoom operator, with the laws they obey.
- `WheelInput` (`wheel_input.dfy`) holds the wheel handler.
  - It covers the guard on the container and the dispatch on ctrl and shift.
  - It also models a session, where wheel events are applied to the camera one after another. This is how the handler's functional state updates compose.

Numbers are exact reals. Every division by the scale requires the scale to be nonzero.

## Model

| member | source | states |
|---|---|---|
| CameraMath.ScreenCanvasCorrespond | src/App.tsx:103-121 | Under a camera with nonzero scale, screen point p maps to canvas point q exactly when q maps back to p: the two mappers are inverse bijections. |
| CameraMath.RoundTripCanvasScreenCanvas | src/App.tsx:103-121 | Mapping a canvas point to the screen and back returns the same canvas point. |
| CameraMath.RoundTripScreenCanvasScreen | src/App.tsx:103-121 | Mapping a screen point to the canvas and back returns the same screen point. |
| CameraMath.InitialCameraView | src/App.tsx:163-167 | The initial camera (0, 0, 1) maps a screen point to its offset from the container centre, and renders the canvas origin at that centre. |
| CameraMath.PanCamera | src/App.tsx:123-129 | A pan never changes the scale. |
| CameraMath.PanMovesPicture | src/App.tsx:113-129 | After a pan by (dx, dy), every canvas point is rendered exactly (dx, dy) pixels up and to the left of where it was, at any zoom. |
| CameraMath.PanIdentity | src/App.tsx:123-129 | A pan by (0, 0) leaves the camera unchanged. |
| CameraMath.PanCompose | src/App.tsx:123-129 | Two pans in a row equal one pan by the sum of their deltas. |
| CameraMath.PanScaleSensitivity | src/App.tsx:123-129 | A 10-pixel pan moves the translation by 5 canvas units at scale 2 and by 10 at scale 1. |
| CameraMath.ZoomedScaleLaw | src/App.tsx:137 | The new scale equals z * (1 - dz). From a positive scale it is positive exactly when dz < 1. It is 0 exactly when z = 0 or dz = 1. |
| CameraMath.ZoomCamera | src/App.tsx:131-148 | A zoom from a nonzero scale by a step other than 1 gives a nonzero scale. |
| CameraMath.ZoomScale | src/App.tsx:131-148 | A zoom multiplies the scale by 1 - dz. |
| CameraMath.ZoomKeepsAnchor | src/App.tsx:131-148 | The canvas point under the zoom point p is the same before and after the zoom. |
| CameraMath.ZoomAnchorInvariance | src/App.tsx:131-148 | The canvas point that was under p before the zoom is rendered exactly at p after it. |
| CameraMath.ZoomNoOp | src/App.tsx:131-148 | A zoom step of 0 leaves the camera unchanged. |
| CameraMath.ZoomUnique | src/App.tsx:131-148 | The zoomed camera is the only camera that has the new scale and keeps the canvas point under p. |
| CameraMath.ZoomCompose | src/App.tsx:131-148 | Two zooms at the same point equal one zoom whose step is dz1 + dz2 - dz1*dz2, so their factors multiply. |
| CameraMath.ZoomAtCentre | src/App.tsx:131-148 | A zoom at the container centre leaves the translation unchanged. |
| CameraMath.ZoomAtCentreExample | src/App.tsx:131-148 | From (0, 0, 1) in a 400x300 container, a zoom by 0.5 at (200, 150) gives (0, 0, 0.5). |
| CameraMath.ZoomAtCornerExample | src/App.tsx:131-148 | From (0, 0, 1) in a 400x300 container, a zoom by 0.5 at (0, 0) gives (-200, -150, 0.5). |
| WheelInput.HandleWheel | src/App.tsx:39-57 | Without a container the event leaves the camera unchanged. With one, the scale stays nonzero, and an event without ctrl keeps the scale. |
| WheelInput.WheelDispatch | src/App.tsx:45-55 | With a container: ctrl zooms at the cursor by deltaY/400; otherwise shift pans by (deltaY, 0); otherwise the event pans by (deltaX, deltaY). |
| WheelInput.CtrlTakesPrecedence | src/App.tsx:45-55 | When ctrl is held, the shift key makes no difference to the result. |
| WheelInput.WheelZoomScale | src/App.tsx:45-48 | A ctrl event multiplies the scale by 1 - deltaY/400. |
| WheelInput.WheelZoomKeepsAnchor | src/App.tsx:45-48 | After a ctrl event, the canvas point that was under the cursor is rendered at the cursor. |
| WheelInput.WheelPanMovesPicture | src/App.tsx:49-55 | An event without ctrl moves every canvas point on screen by minus its pan delta; with shift, the delta is (deltaY, 0). |
| WheelInput.HandleWheelScale | src/App.tsx:39-57 | One event moves the scale by exactly one scale step: the zoom's new scale for a zooming event, and no change otherwise. |
| WheelInput.ScaleStepIsFactor | src/App.tsx:45-48 | One event's scale step multiplies the scale by its factor: 1 - deltaY/400 for a zooming event, and 1 otherwise. |
| WheelInput.ScaleAfterIsProduct | src/App.tsx:45-48 | Applying the events' scale steps one by one multiplies the scale by the product of their factors. |
| WheelInput.ScaleFactorNonzero | src/App.tsx:45-48 | If no zooming event has deltaY = 400, the product of the factors is nonzero. |
| WheelInput.ScaleFactorPositive | src/App.tsx:45-48 | If every zooming event has deltaY < 400, the product of the factors is positive. |
| WheelInput.Replay | src/App.tsx:39-57 | A session keeps the scale nonzero when it starts nonzero and no zooming event has deltaY = 400. |
| WheelInput.ReplayScaleStepwise | src/App.tsx:39-57 | A session's final scale is what the events' scale steps give when applied in order. |
| WheelInput.ReplayScale | src/App.tsx:39-57 | A session multiplies the scale by the product of its events' zoom factors. |
| WheelInput.ScaleAfterPositive | src/App.tsx:45-48 | Starting from a positive scale, scale steps with deltaY < 400 keep the scale positive. |
| WheelInput.ReplayKeepsScalePositive | src/App.tsx:39-57 | A session that starts at a positive scale, and in which every zooming event has deltaY < 400, ends at a positive scale. |
| WheelInput.ReplayPansOnly | src/App.tsx:49-55 | A session without zooming events keeps the scale. It moves the translation by minus the sum of the pan deltas, divided by the scale. |
| WheelInput.ReplayAppend | src/App.tsx:39-57 | Handling a session in two parts gives the same camera as handling it in one go. |

## Left out

- The React components are not modelled: `App`, the `Zoom` rendering and `Readout` (`src/App.tsx:5-18`, `62-101`). This includes the CSS transform string (lines 75-76) that draws the camera. `CanvasToScreen` is its mathematical counterpart.
- Image loading (`loadImage` and the canvas effect, lines 25-36 and 171-179) is not modelled. It is asynchronous I/O and does not touch the camera.
- Registering the wheel listener and `preventDefault` (lines 41 and 58-59) are not modelled. They are DOM plumbing. A session is modelled as the handler applied to each event in arrival order, with the container as it is at that event.
- The Jotai atoms are not modelled (lines 161-169). Only the initial value of the camera atom is, as `INITIAL_CAMERA`. The state store itself is outside this model.
- `toFixed(2)` formatting in the readout (line 98) is not modelled.
- IEEE floating point is not modelled: rounding, and Infinity and NaN from a division by zero. Numbers are exact reals.
- CameraMath.ScreenToCanvas requires a nonzero scale, where the source would return Infinity or NaN.
- CameraMath.PanCamera requires a nonzero scale, where the source would return Infinity or NaN.
- CameraMath.ZoomCamera requires a nonzero scale and dz != 1. In the source, dz = 1 gives scale 0 and then a division by zero. `ZoomedScaleLaw` states that this step gives 0.
- WheelInput.HandleWheel requires a nonzero scale and, for a ctrl event, deltaY != 400. This is the same division-by-zero exclusion.

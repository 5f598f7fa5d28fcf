# HackerVision core in Dafny

HackerVision is a single Android activity that shows the back camera's
picture as green edges on black with retro scanlines. A slider ("scan
depth", 0..100) sets the two Canny thresholds and a detail label. This
project models the parts of the activity that carry exact logic:

- **Scan-depth mapper** (`scan_depth.dfy`, module `ScanDepth`): slider value →
  `(lowThreshold, highThreshold)` as exact reals, and the detail label
  `ARCHITECTURAL` / `STRUCTURAL` / `DETAILED` / `MAXIMUM` with its text
  `"SCAN DEPTH: " + label`.
- **Effect compositor** (`compositor.dfy`, module `Compositor`, over
  `pixels.dfy`, module `Pixels`): `createHackerVisionEffect` and
  `addScanlineEffect` as methods that update the display matrix in place.
  Each OpenCV call they make becomes a method over `array2` with its
  per-element meaning: `setTo`, masked `setTo`, `cvtColor` GRAY→RGBA,
  `inRange`, `Mat.zeros`, a one-row `submat(...).setTo`, and saturating
  `Core.add`. The Kotlin loop `for (y in 0 until rows step 4)` runs over
  `StepFour(0, rows)`, the progression it iterates. The result is proved
  pixel by pixel against `Composite` (edge value, row).
- **Buffer lifecycle and activity state** (`activity.dfy`, module `Activity`):
  class `Mat` (geometry, channel count, whether it holds data) and class
  `MainActivity` with the threshold fields, the label text and the four
  `lateinit` matrices; `onCameraViewStarted` / `onCameraViewStopped`.
- **Permission decision** (`permissions.dfy`, module `Permissions`): the
  outcome of `onRequestPermissionsResult` as the datatype
  `EnableCamera | Finish | Ignore`.

Pixels are 4-tuples of bytes (R, G, B, A), a byte being an `int` in 0..255.
The Canny edge image is an input to the compositor. Its computation is a
library call and is not modelled.

Constants come from the code and from Android: request code 200,
`PERMISSION_GRANTED` = 0, `PERMISSION_DENIED` = -1, accent
`(0,255,0,255)`, background `(0,0,0,255)`, scanline tint `(0,80,0,30)`,
scanline step 4, initial slider position 33, slider maximum 100.

Behaviour of the activity worth knowing:
- Stopping releases only the matrices that were initialised.
- Every start allocates four new matrices without comparing the geometry
  with the previous one.
- Frames and thresholds are never validated.
- `highThreshold` reaches 500 at slider value 0.
- The compositor allocates its temporaries (`cannyRgba`, `mask`,
  `scanlineMat`) on every frame.

## Model

| member | source | states |
|---|---|---|
| Pixels.AddSat | app/src/main/java/com/example/hackervision/MainActivity.kt:264 | the 8-bit sum never wraps: it is at least each operand, exact when the sum fits, and 255 when it overflows |
| Pixels.PixelAddZero | app/src/main/java/com/example/hackervision/MainActivity.kt:256-264 | adding a pixel of the zero overlay leaves the display pixel unchanged |
| Pixels.PixelAdd | app/src/main/java/com/example/hackervision/MainActivity.kt:264 | each channel of the sum is min(255, p + q); no channel decreases; a zero channel of the overlay leaves that channel alone |
| Pixels.InRange | app/src/main/java/com/example/hackervision/MainActivity.kt:247 | with equal lower and upper bounds the per-pixel range test holds exactly for that one pixel |
| Pixels.IsEdge | app/src/main/java/com/example/hackervision/MainActivity.kt:245-247 | widening to RGBA and testing against [255,255] on four channels selects exactly the edge value 255 |
| ScanDepth.ThresholdsFor | app/src/main/java/com/example/hackervision/MainActivity.kt:121-123 | for progress 0..100: 20 ≤ low ≤ 200, 50 ≤ high ≤ 500, low ≤ high; low ≤ high holds exactly when progress ≤ 111; progress 0 gives (200, 500), progress 100 gives (20, 50) |
| ScanDepth.ThresholdsAntitone | app/src/main/java/com/example/hackervision/MainActivity.kt:121-123 | a higher slider value never gives a higher low or high threshold |
| ScanDepth.DetailLevelOf | app/src/main/java/com/example/hackervision/MainActivity.kt:124-129 | each level holds exactly on its range, inclusive below and exclusive above: <25, 25..49, 50..74, ≥75 |
| ScanDepth.DetailLevelMonotone | app/src/main/java/com/example/hackervision/MainActivity.kt:124-129 | raising the slider never makes the level coarser |
| ScanDepth.DetailLevelByLowThreshold | app/src/main/java/com/example/hackervision/MainActivity.kt:121-129 | the level is determined by the low threshold alone: >155, (110,155], (65,110], ≤65 |
| ScanDepth.LabelText | app/src/main/java/com/example/hackervision/MainActivity.kt:124-130 | the label text is "SCAN DEPTH: " followed by one of ARCHITECTURAL, STRUCTURAL, DETAILED, MAXIMUM |
| ScanDepth.LabelTextDistinguishesLevels | app/src/main/java/com/example/hackervision/MainActivity.kt:124-130 | two slider values show the same text if and only if they have the same level |
| ScanDepth.InitialScanDepth | app/src/main/java/com/example/hackervision/MainActivity.kt:107-117 | the initial position 33 gives STRUCTURAL, the text "SCAN DEPTH: STRUCTURAL" and thresholds (140.6, 351.5) |
| Compositor.StepFour | app/src/main/java/com/example/hackervision/MainActivity.kt:257 | `start until end step 4` contains exactly the y with start ≤ y < end and y − start divisible by 4, in strictly increasing order |
| Compositor.ScanlineCount | app/src/main/java/com/example/hackervision/MainActivity.kt:257-263 | the loop visits ⌈(end − start)/4⌉ rows, and none when start ≥ end |
| Compositor.Composite | app/src/main/java/com/example/hackervision/MainActivity.kt:242-264 | every output pixel has R = B = 0 and is opaque; off a scanline row it is green exactly when the edge value is 255 and black otherwise; on a scanline row a green pixel stays (0,255,0,255) and a black pixel becomes (0,80,0,255) |
| Compositor.SetTo | app/src/main/java/com/example/hackervision/MainActivity.kt:243 | every element becomes the colour |
| Compositor.FillRow | app/src/main/java/com/example/hackervision/MainActivity.kt:259-260 | the row takes the colour in all columns; every other row is unchanged |
| Compositor.SetToMasked | app/src/main/java/com/example/hackervision/MainActivity.kt:248 | elements with a non-zero mask take the colour; all others keep their old value |
| Compositor.GrayToRgbaMat | app/src/main/java/com/example/hackervision/MainActivity.kt:244-245 | a new matrix of the same size holding the GRAY→RGBA conversion of every element |
| Compositor.InRangeMat | app/src/main/java/com/example/hackervision/MainActivity.kt:246-247 | a new mask of the same size, 255 exactly where the pixel lies in the bounds, 0 elsewhere |
| Compositor.Zeros | app/src/main/java/com/example/hackervision/MainActivity.kt:256 | a new matrix of the given size, all (0,0,0,0) |
| Compositor.AddInPlace | app/src/main/java/com/example/hackervision/MainActivity.kt:264 | every display element becomes the saturating sum of its old value and the overlay's |
| Compositor.AddScanlineEffect | app/src/main/java/com/example/hackervision/MainActivity.kt:254-266 | rows with y % 4 = 0 get the tint added with saturation across all columns; every other row is left unchanged |
| Compositor.CreateHackerVisionEffect | app/src/main/java/com/example/hackervision/MainActivity.kt:242-252 | afterwards every display pixel equals `Composite` of its edge value and row |
| Permissions.OnRequestPermissionsResult | app/src/main/java/com/example/hackervision/MainActivity.kt:155-169 | EnableCamera if and only if the code is 200 and the first result is granted; Finish if and only if the code is 200 and the results are empty or the first one is not granted; Ignore if and only if the code is not 200 |
| Permissions.OnlyFirstResultMatters | app/src/main/java/com/example/hackervision/MainActivity.kt:162 | results agreeing on their first entry give the same outcome |
| Permissions.DenialFinishes | app/src/main/java/com/example/hackervision/MainActivity.kt:161-167 | an explicit denial of the camera request finishes the activity |
| Activity.Mat.constructor | app/src/main/java/com/example/hackervision/MainActivity.kt:208-211 | a new matrix has the requested rows, columns and channel count and holds data |
| Activity.Mat.Release | app/src/main/java/com/example/hackervision/MainActivity.kt:216-219 | after release the matrix holds no data and its sizes are 0, also when it was already released |
| Activity.MainActivity.constructor | app/src/main/java/com/example/hackervision/MainActivity.kt:52-59 | the initial thresholds are 50 / 150 and in range; no matrix is initialised |
| Activity.MainActivity.UpdateScanDepth | app/src/main/java/com/example/hackervision/MainActivity.kt:120-131 | the fields become the mapper's thresholds and the label text for the value; for a slider value 0..100 they are in range and ordered |
| Activity.MainActivity.SetupScanDepthControl | app/src/main/java/com/example/hackervision/MainActivity.kt:105-118 | after setup the thresholds are 140.6 / 351.5 and the label reads "SCAN DEPTH: STRUCTURAL" |
| Activity.MainActivity.OnCameraViewStarted | app/src/main/java/com/example/hackervision/MainActivity.kt:206-212 | four new matrices with rows = height and cols = width, with 4, 1, 1 and 4 channels, all holding data |
| Activity.MainActivity.OnCameraViewStopped | app/src/main/java/com/example/hackervision/MainActivity.kt:214-220 | every initialised matrix is released and uninitialised ones stay uninitialised, so stop before start and a repeated stop are safe; the fields keep their matrices |

## Left out

- `onCameraFrame` (MainActivity.kt:222-240): the conversion to gray, the Gaussian blur and the Canny detector are OpenCV calls whose code is not part of this model. The compositor takes the Canny output as an input matrix.
- The reassignment of `rgbaMat` to each incoming frame (MainActivity.kt:224) and the native memory it abandons are not modelled. The compositor does not read `rgbaMat`.
- The class `Mat` tracks geometry and whether it holds data. The pixel storage of the activity's matrices is modelled separately as the `array2` arguments of the compositor.
- Compositor.CreateHackerVisionEffect: requires the edge image and the display to have the same size. The camera delivers frames of the geometry it reported to `onCameraViewStarted`, so the Canny image matches `displayMat`; the exception OpenCV's masked `setTo` raises on a size mismatch is not modelled.
- Activity.Mat.constructor: negative sizes are excluded by its requires, because OpenCV refuses them. The camera always reports non-negative sizes, so `OnCameraViewStarted` requires them too.
- The thresholds are exact reals. The rounding of Kotlin's `Double` is not modelled.
- Android UI and shell: window flags, layout inflation, the slider listener wiring, the Toast shown before finishing, the permission request call, and the permission check in `onCreate`/`onResume`. `Finish` stands for the Toast plus `finish()`.
- `enableCamera`'s guard `::cameraView.isInitialized`: the view is always set in `onCreate`, so `EnableCamera` is the decision only. Enabling the view is device control.
- OpenCV loader initialisation and the commented-out loader callback are environment bootstrap.
- Camera device control: `enableView`, `disableView`, the camera index, the maximum frame size, and `onResume`/`onPause`/`onDestroy`.
- Threads: the thresholds are written on the UI thread and read on the camera thread without synchronisation. The model is sequential.
- The initial label text comes from the layout file, which is not part of this model, so the constructor sets it to "".

/**
 * The activity's own state: the two Canny thresholds and the scan-depth
 * label it keeps up to date, and the four OpenCV matrices it allocates when
 * the camera view starts and releases when it stops.
 */
module Activity {
  import opened ScanDepth

  /** Channel count of `CvType.CV_8UC4`. */
  const RgbaChannels := 4
  /** Channel count of `CvType.CV_8UC1`. */
  const GrayChannels := 1

  /**
   * An OpenCV matrix as far as its lifetime goes: its geometry, its channel
   * count, and whether it still holds its data.
   */
  class Mat {
    var rows: int
    var cols: int
    const channels: nat
    var hasData: bool

    /** `Mat(rows, cols, type)`; OpenCV refuses negative sizes. */
    constructor (rows: int, cols: int, channels: nat)
      requires 0 <= rows && 0 <= cols
      ensures this.rows == rows && this.cols == cols && this.channels == channels
      ensures hasData
    {
      this.rows := rows;
      this.cols := cols;
      this.channels := channels;
      hasData := true;
    }

    /** `release()`: the data is freed and the sizes become zero; releasing a released matrix is harmless. */
    method Release()
      modifies this
      ensures !hasData && rows == 0 && cols == 0
    {
      hasData := false;
      rows := 0;
      cols := 0;
    }
  }

  class MainActivity {
    var lowThreshold: real
    var highThreshold: real
    /** The text shown by the scan-depth label. */
    var scanDepthLabel: string

    // The `lateinit` matrices; null stands for "not yet initialised".
    var rgbaMat: Mat?
    var grayMat: Mat?
    var cannyMat: Mat?
    var displayMat: Mat?

    /** The thresholds lie in the slider's range of values and are ordered. */
    predicate ThresholdsInRange()
      reads this
    {
      20.0 <= lowThreshold <= highThreshold <= 500.0
    }

    /** Matrix `m` is allocated with the given geometry and channel count. */
    predicate Allocated(m: Mat?, rows: int, cols: int, channels: nat)
      reads m
    {
      m != null && m.hasData && m.rows == rows && m.cols == cols && m.channels == channels
    }

    /** Matrix `m` is either uninitialised or released. */
    predicate Released(m: Mat?)
      reads m
    {
      m != null ==> !m.hasData && m.rows == 0 && m.cols == 0
    }

    /** The field initialisers: thresholds 50 / 150, no matrix initialised yet. */
    constructor ()
      ensures lowThreshold == 50.0 && highThreshold == 150.0 && ThresholdsInRange()
      ensures scanDepthLabel == ""
      ensures rgbaMat == null && grayMat == null && cannyMat == null && displayMat == null
    {
      lowThreshold := 50.0;
      highThreshold := 150.0;
      scanDepthLabel := "";
      rgbaMat, grayMat, cannyMat, displayMat := null, null, null, null;
    }

    /**
     * `updateScanDepth`: the thresholds and the label follow the slider
     * value. From a slider position (0..100) the thresholds are in range
     * and ordered.
     */
    method UpdateScanDepth(progress: int)
      modifies this`lowThreshold, this`highThreshold, this`scanDepthLabel
      ensures Thresholds(lowThreshold, highThreshold) == ThresholdsFor(progress)
      ensures scanDepthLabel == LabelText(progress)
      ensures 0 <= progress <= SeekBarMax ==> ThresholdsInRange()
    {
      var t := ThresholdsFor(progress);
      lowThreshold := t.low;
      highThreshold := t.high;
      scanDepthLabel := LabelText(progress);
    }

    /**
     * `setupScanDepthControl`: the slider is set to 0..100 at position 33
     * and the thresholds and label are computed for 33.
     */
    method SetupScanDepthControl()
      modifies this`lowThreshold, this`highThreshold, this`scanDepthLabel
      ensures lowThreshold == 140.6 && highThreshold == 351.5 && ThresholdsInRange()
      ensures scanDepthLabel == "SCAN DEPTH: STRUCTURAL"
    {
      UpdateScanDepth(InitialProgress);
      InitialScanDepth();
    }

    /**
     * `onCameraViewStarted`: four new matrices of the reported geometry
     * (rows = height, cols = width): RGBA input, gray, Canny edges, RGBA
     * display. Matrices of an earlier start are replaced, not released.
     */
    method OnCameraViewStarted(width: int, height: int)
      requires 0 <= width && 0 <= height
      modifies this`rgbaMat, this`grayMat, this`cannyMat, this`displayMat
      ensures fresh(rgbaMat) && fresh(grayMat) && fresh(cannyMat) && fresh(displayMat)
      ensures Allocated(rgbaMat, height, width, RgbaChannels)
      ensures Allocated(grayMat, height, width, GrayChannels)
      ensures Allocated(cannyMat, height, width, GrayChannels)
      ensures Allocated(displayMat, height, width, RgbaChannels)
    {
      rgbaMat := new Mat(height, width, RgbaChannels);
      grayMat := new Mat(height, width, GrayChannels);
      cannyMat := new Mat(height, width, GrayChannels);
      displayMat := new Mat(height, width, RgbaChannels);
    }

    /**
     * `onCameraViewStopped`: every matrix that was ever initialised is
     * released; uninitialised ones are skipped, so stopping before any start,
     * or stopping twice, is safe. The fields keep their matrices.
     */
    method OnCameraViewStopped()
      modifies rgbaMat, grayMat, cannyMat, displayMat
      ensures rgbaMat == old(rgbaMat) && grayMat == old(grayMat)
      ensures cannyMat == old(cannyMat) && displayMat == old(displayMat)
      ensures Released(rgbaMat) && Released(grayMat) && Released(cannyMat) && Released(displayMat)
    {
      if rgbaMat != null { rgbaMat.Release(); }
      if grayMat != null { grayMat.Release(); }
      if cannyMat != null { cannyMat.Release(); }
      if displayMat != null { displayMat.Release(); }
    }
  }
}

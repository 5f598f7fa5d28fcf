/**
 * The "scan depth" control: the slider value (0..100) chooses the two
 * Canny hysteresis thresholds and a detail label shown above the slider.
 * The thresholds are Kotlin `Double`s in the app; here they are exact reals.
 */
module ScanDepth {

  /** The slider's maximum, set when the control is built. */
  const SeekBarMax := 100
  /** The slider's initial position. */
  const InitialProgress := 33
  /** Prefix of the label text. */
  const LabelPrefix := "SCAN DEPTH: "

  /** The pair handed to `Imgproc.Canny`. */
  datatype Thresholds = Thresholds(low: real, high: real)

  /** The four detail levels named by the label. */
  datatype DetailLevel = Architectural | Structural | Detailed | Maximum
  {
    /** The upper-case word the label shows. */
    function Name(): (s: string)
    {
      match this
      case Architectural => "ARCHITECTURAL"
      case Structural => "STRUCTURAL"
      case Detailed => "DETAILED"
      case Maximum => "MAXIMUM"
    }

    /** Position of the level from coarsest (0) to finest (3). */
    function Rank(): (n: nat)
    {
      match this
      case Architectural => 0
      case Structural => 1
      case Detailed => 2
      case Maximum => 3
    }
  }

  /**
   * The thresholds for a slider value: sensitivity = progress / 100,
   * low = 20 + 180 * (1 - sensitivity), high = 2.5 * low.
   * On the slider's range low stays in [20, 200], high in [50, 500], and
   * the pair is ordered; ordering in fact holds exactly up to progress 111,
   * where low would turn negative.
   */
  function ThresholdsFor(progress: int): (t: Thresholds)
    ensures 0 <= progress <= SeekBarMax ==>
      20.0 <= t.low <= 200.0 && 50.0 <= t.high <= 500.0 && t.low <= t.high
    ensures t.low <= t.high <==> progress <= 111
    ensures progress == 0 ==> t == Thresholds(200.0, 500.0)
    ensures progress == SeekBarMax ==> t == Thresholds(20.0, 50.0)
  {
    var sensitivity := progress as real / 100.0;
    var low := 20.0 + 180.0 * (1.0 - sensitivity);
    Thresholds(low, low * 2.5)
  }

  /** A higher slider value never gives a higher threshold. */
  lemma ThresholdsAntitone(p: int, q: int)
    requires p <= q
    ensures ThresholdsFor(q).low <= ThresholdsFor(p).low
    ensures ThresholdsFor(q).high <= ThresholdsFor(p).high
  {
  }

  /**
   * The detail level of a slider value. Each level covers a range that is
   * inclusive below and exclusive above: [.., 25), [25, 50), [50, 75), [75, ..).
   */
  function DetailLevelOf(progress: int): (d: DetailLevel)
    ensures d == Architectural <==> progress < 25
    ensures d == Structural <==> 25 <= progress < 50
    ensures d == Detailed <==> 50 <= progress < 75
    ensures d == Maximum <==> 75 <= progress
  {
    if progress < 25 then Architectural
    else if progress < 50 then Structural
    else if progress < 75 then Detailed
    else Maximum
  }

  /** Raising the slider never makes the label coarser. */
  lemma DetailLevelMonotone(p: int, q: int)
    requires p <= q
    ensures DetailLevelOf(p).Rank() <= DetailLevelOf(q).Rank()
  {
  }

  /**
   * The label is a function of the low threshold alone: each level is an
   * interval of low thresholds, the boundaries 155, 110 and 65 being the
   * thresholds of slider values 25, 50 and 75.
   */
  lemma DetailLevelByLowThreshold(progress: int)
    ensures var low := ThresholdsFor(progress).low;
      (DetailLevelOf(progress) == Architectural <==> 155.0 < low) &&
      (DetailLevelOf(progress) == Structural <==> 110.0 < low <= 155.0) &&
      (DetailLevelOf(progress) == Detailed <==> 65.0 < low <= 110.0) &&
      (DetailLevelOf(progress) == Maximum <==> low <= 65.0)
  {
  }

  /** The text of the label: "SCAN DEPTH: " followed by the level's name. */
  function LabelText(progress: int): (s: string)
    ensures |LabelPrefix| < |s| && s[..|LabelPrefix|] == LabelPrefix
    ensures s[|LabelPrefix|..] in {"ARCHITECTURAL", "STRUCTURAL", "DETAILED", "MAXIMUM"}
  {
    LabelPrefix + DetailLevelOf(progress).Name()
  }

  /** Two slider values show the same text exactly when they have the same level. */
  lemma LabelTextDistinguishesLevels(p: int, q: int)
    ensures LabelText(p) == LabelText(q) <==> DetailLevelOf(p) == DetailLevelOf(q)
  {
  }

  /** The initial slider value 33 selects STRUCTURAL, with thresholds 140.6 / 351.5. */
  lemma InitialScanDepth()
    ensures DetailLevelOf(InitialProgress) == Structural
    ensures LabelText(InitialProgress) == "SCAN DEPTH: STRUCTURAL"
    ensures ThresholdsFor(InitialProgress) == Thresholds(140.6, 351.5)
  {
  }
}

/**
 * The plugin's global settings (UOpenXRGlobalSettings): filter selection and
 * parameters, and the per-finger thresholds for the extended, closed and
 * pinched states, with the range-checked lookups of those thresholds.
 */
module XRSettings {

  /** The settings object's fields, in declaration order. */
  datatype GlobalSettings = GlobalSettings(
    simpleLowpassCutoffFrequency: real,
    useOneEuroLowpassFilter: bool,
    minimumCutoff: real,
    deltaCutoff: real,
    cutoffSlope: real,
    extendedThresholdThumb: real,
    extendedThresholdIndex: real,
    extendedThresholdMiddle: real,
    extendedThresholdRing: real,
    extendedThresholdLittle: real,
    closedThresholdThumb: real,
    closedThresholdIndex: real,
    closedThresholdMiddle: real,
    closedThresholdRing: real,
    closedThresholdLittle: real,
    pinchedThresholdIndex: real,
    pinchedThresholdMiddle: real,
    pinchedThresholdRing: real,
    pinchedThresholdLittle: real)

  /** The values the constructor assigns. */
  function DefaultSettings(): GlobalSettings {
    GlobalSettings(
      2.0, false, 0.9, 1.0, 0.1,
      13.0, 14.0, 14.0, 14.0, 13.0,
      11.5, 11.0, 11.0, 11.0, 11.0,
      1.1, 1.3, 1.3, 1.3)
  }

  /** The extended thresholds from thumb (0) to little finger (4). */
  function ExtendedThresholds(s: GlobalSettings): seq<real> {
    [s.extendedThresholdThumb, s.extendedThresholdIndex, s.extendedThresholdMiddle,
     s.extendedThresholdRing, s.extendedThresholdLittle]
  }

  /** The closed thresholds from thumb (0) to little finger (4). */
  function ClosedThresholds(s: GlobalSettings): seq<real> {
    [s.closedThresholdThumb, s.closedThresholdIndex, s.closedThresholdMiddle,
     s.closedThresholdRing, s.closedThresholdLittle]
  }

  /** The pinched thresholds from index (1) to little finger (4); the thumb has none. */
  function PinchedThresholds(s: GlobalSettings): seq<real> {
    [s.pinchedThresholdIndex, s.pinchedThresholdMiddle, s.pinchedThresholdRing, s.pinchedThresholdLittle]
  }

  /**
   * GetExtendedThreshold, reading the default object `s`: (found, the
   * out-parameter afterwards). The out-parameter is untouched when not found.
   */
  function GetExtendedThreshold(s: GlobalSettings, fingerIndex: int, threshold: real): (r: (bool, real))
    ensures r.0 <==> 0 <= fingerIndex <= 4
    ensures r.0 ==> r.1 == ExtendedThresholds(s)[fingerIndex]
    ensures !r.0 ==> r.1 == threshold
  {
    if fingerIndex < 0 || fingerIndex > 4 then (false, threshold)
    else match fingerIndex
      case 0 => (true, s.extendedThresholdThumb)
      case 1 => (true, s.extendedThresholdIndex)
      case 2 => (true, s.extendedThresholdMiddle)
      case 3 => (true, s.extendedThresholdRing)
      case 4 => (true, s.extendedThresholdLittle)
      case _ => (false, threshold)
  }

  function GetClosedThreshold(s: GlobalSettings, fingerIndex: int, threshold: real): (r: (bool, real))
    ensures r.0 <==> 0 <= fingerIndex <= 4
    ensures r.0 ==> r.1 == ClosedThresholds(s)[fingerIndex]
    ensures !r.0 ==> r.1 == threshold
  {
    if fingerIndex < 0 || fingerIndex > 4 then (false, threshold)
    else match fingerIndex
      case 0 => (true, s.closedThresholdThumb)
      case 1 => (true, s.closedThresholdIndex)
      case 2 => (true, s.closedThresholdMiddle)
      case 3 => (true, s.closedThresholdRing)
      case 4 => (true, s.closedThresholdLittle)
      case _ => (false, threshold)
  }

  function GetPinchedThreshold(s: GlobalSettings, fingerIndex: int, threshold: real): (r: (bool, real))
    ensures r.0 <==> 1 <= fingerIndex <= 4
    ensures r.0 ==> r.1 == PinchedThresholds(s)[fingerIndex - 1]
    ensures !r.0 ==> r.1 == threshold
  {
    if fingerIndex < 1 || fingerIndex > 4 then (false, threshold)
    else match fingerIndex
      case 1 => (true, s.pinchedThresholdIndex)
      case 2 => (true, s.pinchedThresholdMiddle)
      case 3 => (true, s.pinchedThresholdRing)
      case 4 => (true, s.pinchedThresholdLittle)
      case _ => (false, threshold)
  }

  /**
   * In the defaults every finger's extended threshold lies above its closed
   * one, and every pinch threshold is positive and below the closed one.
   */
  lemma DefaultThresholdsOrdered(fingerIndex: int, threshold: real)
    requires 0 <= fingerIndex <= 4
    ensures var s := DefaultSettings();
      && GetExtendedThreshold(s, fingerIndex, threshold).1 > GetClosedThreshold(s, fingerIndex, threshold).1
      && (fingerIndex >= 1 ==>
            0.0 < GetPinchedThreshold(s, fingerIndex, threshold).1 < GetClosedThreshold(s, fingerIndex, threshold).1)
  {
  }

  /** The defaults select the simple filter with a 2 Hz cutoff, and the one-euro parameters are non-negative. */
  lemma DefaultFilterSelection()
    ensures var s := DefaultSettings();
      && !s.useOneEuroLowpassFilter && s.simpleLowpassCutoffFrequency == 2.0
      && s.minimumCutoff >= 0.0 && s.cutoffSlope >= 0.0 && s.deltaCutoff >= 0.0
  {
  }
}

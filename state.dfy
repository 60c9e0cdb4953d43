/**
 * What wsclean's scanning loop carries from option to option (the settings
 * and main's three local flags), and what each option does to the boolean
 * settings: for each boolean, the options that set it and those that clear it.
 */
module State {
  import opened Wrappers
  import opened Settings
  import opened OptionTable

  /** What the loop carries: the settings and main's local flags. */
  datatype ScanState = ScanState(
    settings: Settings, mfsWeighting: bool, noMFSWeighting: bool, predictionMode: bool)

  /** The state before the first option: the default settings, all three local flags false. */
  function Initial(defaults: Settings): ScanState {
    ScanState(defaults, false, false, false)
  }

  /**
   * What option `f` writes into boolean setting `t`: true, false, or nothing.
   * Every option that writes a boolean writes a constant.
   */
  function Writes(t: Switch, f: Flag): Option<bool> {
    match t
    case WeightImageSaved => if f.SaveWeights? then Some(true) else None
    case UVImageSaved => if f.SaveUV? then Some(true) else None
    case GriddingImageSaved => if f.SaveGridding? then Some(true) else None
    case ModelSubtracted => if f.SubtractModel? then Some(true) else None
    case PSFMade => if f.MakePSF? then Some(true) else None
    case PSFOnly => if f.MakePSFOnly? then Some(true) else None
    case ReorderForced => if f.Reorder? then Some(true) else if f.NoReorder? then Some(false) else None
    case NoReorderForced =>
      if f.NoReorder? then Some(true) else if f.Reorder? then Some(false) else None
    case ModelUpdateRequested =>
      if f.UpdateModelRequired? then Some(true) else if f.NoUpdateModelRequired? then Some(false) else None
    case PredictionByDFT => if f.DFTPrediction? then Some(true) else None
    case DFTBeamApplied => if f.DFTWithBeam? then Some(true) else None
    case InversionSmall =>
      if f.SmallInversion? then Some(true) else if f.NoSmallInversion? then Some(false) else None
    case IDGUsed => if f.UseIDG? then Some(true) else None
    case WeightingNormalized => if f.NoNormalizeForWeighting? then Some(false) else None
    // IUWT is unstable with negative components, so -iuwt also forbids them.
    case NegativeAllowed =>
      if f.Negative? then Some(true) else if f.NoNegative? || f.IUWT? then Some(false) else None
    case NegativeStops => if f.StopNegative? then Some(true) else None
    case IUWTUsed => if f.IUWT? then Some(true) else None
    case MoreSaneUsed => if f.MoreSaneExt? then Some(true) else None
    case PolarizationsJoined => if f.JoinPolarizations? then Some(true) else None
    case ChannelsJoined => if f.JoinChannels? then Some(true) else None
    case MultiscaleUsed => if f.Multiscale? then Some(true) else None
    case FastMultiscaleUsed => if f.FastMultiscale? then Some(true) else None
    case ResponseNormalized => if f.MultiscaleNormalizeResponse? then Some(true) else None
    case PrimaryBeamApplied => if f.ApplyPrimaryBeam? then Some(true) else None
    case PrimaryBeamReused => if f.ReusePrimaryBeam? then Some(true) else None
    case DifferentialLofarBeamUsed => if f.UseDifferentialLofarBeam? then Some(true) else None
    // A theoretic beam replaces the fitted one.
    case BeamFitted =>
      if f.FitBeam? then Some(true) else if f.NoFitBeam? || f.TheoreticBeam? then Some(false) else None
    case BeamTheoretic => if f.TheoreticBeam? then Some(true) else None
    case BeamCircular =>
      if f.CircularBeam? then Some(true) else if f.EllipticalBeam? then Some(false) else None
  }

  /** Every boolean setting the scanner writes. */
  const AllSwitches: set<Switch> := {
    WeightImageSaved, UVImageSaved, GriddingImageSaved, ModelSubtracted, PSFMade,
    PSFOnly, ReorderForced, NoReorderForced, ModelUpdateRequested, PredictionByDFT,
    DFTBeamApplied, InversionSmall, IDGUsed, WeightingNormalized, NegativeAllowed,
    NegativeStops, IUWTUsed, MoreSaneUsed, PolarizationsJoined, ChannelsJoined,
    MultiscaleUsed, FastMultiscaleUsed, ResponseNormalized, PrimaryBeamApplied, PrimaryBeamReused,
    DifferentialLofarBeamUsed, BeamFitted, BeamTheoretic, BeamCircular}

  lemma AllSwitchesComplete(t: Switch)
    ensures t in AllSwitches
  {
    match t
    case _ =>
  }

  /** The boolean settings that are true after option `f`, given those true before it. */
  function Switched(enabled: set<Switch>, f: Flag): set<Switch> {
    set t | t in AllSwitches && (if Writes(t, f).Some? then Writes(t, f).value else t in enabled)
  }

  function WithGridding(st: ScanState, g: Gridding): ScanState {
    st.(settings := st.settings.(gridding := g))
  }

  function WithWeighting(st: ScanState, w: Weighting): ScanState {
    st.(settings := st.settings.(weighting := w))
  }
}

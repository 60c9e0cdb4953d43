/**
 * The WSCleanSettings record that the scanner fills in. The record is flat in
 * WSClean; here its fields are grouped by concern, and every field keeps the
 * name it has in WSClean, except that the boolean fields the options set are
 * kept together as the set of those that are true. Only the fields the
 * scanner writes are modelled.
 */
module Settings {
  import opened Conversions

  /** The gridding kernel (settings.gridMode). */
  datatype GridMode = KaiserBesselKernel | RectangularKernel | NearestNeighbourGridding

  /** MeasurementSetGridder::VisibilityWeightingMode. */
  datatype VisibilityWeightingMode =
    NormalVisibilityWeighting | SquaredVisibilityWeighting | UnitVisibilityWeighting

  /** The spectral fitting mode; the scanner only ever selects the two polynomial modes. */
  datatype SpectralFittingMode =
    NoSpectralFitting | PolynomialSpectralFitting | LogPolynomialSpectralFitting

  /** The weighting scheme of a WeightMode. */
  datatype WeightKind = NaturalWeighted | UniformWeighted | BriggsWeighted(robustness: real)

  /** WeightMode: a scheme plus the orthogonal super-weight factor. */
  datatype WeightMode = WeightMode(kind: WeightKind, superWeight: real)

  datatype ImageGeometry = ImageGeometry(
    untrimmedImageWidth: int, untrimmedImageHeight: int,
    trimmedImageWidth: int, trimmedImageHeight: int,
    pixelScaleX: real, pixelScaleY: real)

  datatype Gridding = Gridding(
    gridMode: GridMode,
    antialiasingKernelSize: int, overSamplingFactor: int,
    nWLayers: int, widthForNWCalculation: int, heightForNWCalculation: int,
    wLimit: real)

  datatype Weighting = Weighting(
    weightMode: WeightMode, mfsWeighting: bool,
    gaussianTaperBeamSize: real, edgeTaperInLambda: real, edgeTukeyTaperInLambda: real,
    tukeyTaperInLambda: real, tukeyInnerTaperInLambda: real,
    rankFilterLevel: real, rankFilterSize: int,
    visibilityWeightingMode: VisibilityWeightingMode)

  datatype Selection = Selection(
    startTimestep: int, endTimestep: int, intervalsOut: int,
    startChannel: int, endChannel: int, channelsOut: int,
    fieldId: int, dataColumnName: string, polarizations: set<Polarization>,
    minUVWInMeters: real, maxUVWInMeters: real, minUVInLambda: real, maxUVInLambda: real)

  datatype Deconvolution = Deconvolution(
    deconvolutionGain: real, deconvolutionMGain: real,
    deconvolutionIterationCount: int, deconvolutionThreshold: real,
    moreSaneLocation: string, moreSaneArgs: string, moreSaneSigmaLevels: seq<real>,
    multiscaleDeconvolutionThresholdBias: real, multiscaleDeconvolutionScaleBias: real,
    multiscaleScaleList: seq<real>,
    deconvolutionBorderRatio: real,
    fitsDeconvolutionMask: string, casaDeconvolutionMask: string,
    spectralFittingMode: SpectralFittingMode, spectralFittingTerms: int,
    deconvolutionChannelCount: int)

  datatype Restoration = Restoration(
    manualBeamMajorSize: real, manualBeamMinorSize: real, manualBeamPA: real)

  datatype RunControl = RunControl(
    threadCount: int, memFraction: real, absMemLimit: real, predictionChannels: int,
    temporaryDirectory: string, prefixName: string,
    filenames: seq<string>)

  /**
   * The boolean settings the scanner writes, one constructor per field (the
   * WSClean field name follows each). A Settings value holds the set of those
   * that are true.
   */
  datatype Switch =
    | WeightImageSaved     // isWeightImageSaved
    | UVImageSaved         // isUVImageSaved
    | GriddingImageSaved   // isGriddingImageSaved
    | ModelSubtracted      // subtractModel
    | PSFMade              // makePSF
    | PSFOnly              // makePSFOnly
    | ReorderForced        // forceReorder
    | NoReorderForced      // forceNoReorder
    | ModelUpdateRequested // modelUpdateRequired
    | PredictionByDFT      // dftPrediction
    | DFTBeamApplied       // dftWithBeam
    | InversionSmall       // smallInversion
    | IDGUsed              // useIDG
    | WeightingNormalized  // normalizeForWeighting
    | NegativeAllowed      // allowNegativeComponents
    | NegativeStops        // stopOnNegativeComponents
    | IUWTUsed             // useIUWTDeconvolution
    | MoreSaneUsed         // useMoreSaneDeconvolution
    | PolarizationsJoined  // joinedPolarizationCleaning
    | ChannelsJoined       // joinedFrequencyCleaning
    | MultiscaleUsed       // useMultiscale
    | FastMultiscaleUsed   // useFastMultiscale
    | ResponseNormalized   // multiscaleNormalizeResponse
    | PrimaryBeamApplied   // applyPrimaryBeam
    | PrimaryBeamReused    // reusePrimaryBeam
    | DifferentialLofarBeamUsed // useDifferentialLofarBeam
    | BeamFitted           // fittedBeam
    | BeamTheoretic        // theoreticBeam
    | BeamCircular         // circularBeam

  datatype Settings = Settings(
    geometry: ImageGeometry, gridding: Gridding, weighting: Weighting,
    selection: Selection, deconvolution: Deconvolution,
    restoration: Restoration, run: RunControl,
    enabled: set<Switch>)
}

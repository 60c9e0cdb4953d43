/**
 * The argument scan of wsclean's main function as functions: one step of the
 * scanning loop (`Step`, one option), the whole loop (`ScanFrom`), and what
 * main does with its outcome (`MainOutcome`): the input check, the derived
 * mfsWeighting, the file list, the echoed command line and the choice of
 * entry point.
 *
 * `argv` is the whole argument vector, program name included, so indices and
 * lengths are those of argv and argc. An option whose values run past the end
 * of argv makes WSClean read argv[argc] or beyond; this model reports that as
 * MissingArgument instead.
 */
module Scanner {
  import opened Wrappers
  import opened Conversions
  import opened Settings
  import opened OptionTable
  import opened State

  /** The exceptions the scan can raise. */
  datatype Failure =
    | UnknownParameter(param: string)
    | MissingArgument(param: string)
    | InvalidGriddingMode(value: string)
    | UnknownWeightingMode(value: string)
    | UnknownVisibilityWeightingMode(value: string)
    | NoInputMeasurementSets

  /** The text of each exception; MissingArgument has no counterpart in WSClean. */
  function Message(f: Failure): string {
    match f
    case UnknownParameter(p) => "Unknown parameter: " + p
    case MissingArgument(p) => "Missing argument for parameter: " + p
    case InvalidGriddingMode(_) =>
      "Invalid gridding mode: should be either kb (Kaiser-Bessel) or nn (NearestNeighbour)"
    case UnknownWeightingMode(_) => "Unknown weighting mode specified"
    case UnknownVisibilityWeightingMode(m) => "Unknown weighting mode: " + m
    case NoInputMeasurementSets => "No input measurement sets given."
  }

  /** One pass of the loop: go on at `next`, leave main with 0 (-version), or throw. */
  datatype StepOutcome = Continue(state: ScanState, next: nat) | ShowVersion | Throw(failure: Failure)

  /** Whether the token after the option is "briggs", which makes -weight consume one more token. */
  predicate BriggsFollows(rest: seq<string>) {
    |rest| > 0 && rest[0] == "briggs"
  }

  /** The three values -weight accepts; they are compared as given, without lower-casing. */
  const WeightNames: set<string> := {"natural", "uniform", "briggs"}

  /** The i-th value an option reads, or "" past the values it reads. */
  function At(values: seq<string>, i: nat): string {
    if i < |values| then values[i] else ""
  }

  /**
   * What the branch of option `f` does to the state, given the values it
   * reads (the tokens after the option, as many as ValuesRead says). Only the
   * three options with an enumerated value can fail; every other option is an
   * assignment.
   */
  function Effect(ext: Externals, st: ScanState, f: Flag, values: seq<string>)
    : (r: Result<ScanState, Failure>)
    ensures r.Err? <==>
              || (f.GridModeFlag? && ParseGridMode(At(values, 0)).None?)
              || (f.Weight? && At(values, 0) !in WeightNames)
              || (f.VisibilityWeightingModeFlag? && ParseVisibilityWeightingMode(At(values, 0)).None?)
    ensures r.Err? ==>
              r.error == (if f.GridModeFlag? then InvalidGriddingMode(At(values, 0))
                          else if f.Weight? then UnknownWeightingMode(At(values, 0))
                          else UnknownVisibilityWeightingMode(ToLower(At(values, 0))))
    ensures !f.GridModeFlag? && !f.Weight? && !f.VisibilityWeightingModeFlag? ==>
              r == Ok(Assign(ext, st, f, values))
  {
    var wt := st.settings.weighting;
    var v1 := At(values, 0);
    if f.GridModeFlag? then
      (match ParseGridMode(v1)
       case Some(mode) => Ok(WithGridding(st, st.settings.gridding.(gridMode := mode)))
       case None => Err(InvalidGriddingMode(v1)))
    else if f.Weight? then
      // Each branch installs a new WeightMode, which carries the initial super weight.
      if v1 == "natural" then
        Ok(WithWeighting(st, wt.(weightMode := WeightMode(NaturalWeighted, ext.initialSuperWeight))))
      else if v1 == "uniform" then
        Ok(WithWeighting(st, wt.(weightMode := WeightMode(UniformWeighted, ext.initialSuperWeight))))
      else if v1 == "briggs" then
        var briggs := BriggsWeighted(ext.atof(At(values, 1)));
        Ok(WithWeighting(st, wt.(weightMode := WeightMode(briggs, ext.initialSuperWeight))))
      else Err(UnknownWeightingMode(v1))
    else if f.VisibilityWeightingModeFlag? then
      (match ParseVisibilityWeightingMode(v1)
       case Some(mode) => Ok(WithWeighting(st, wt.(visibilityWeightingMode := mode)))
       case None => Err(UnknownVisibilityWeightingMode(ToLower(v1))))
    else Ok(Assign(ext, st, f, values))
  }

  /**
   * What one of the options without an enumerated value does: it assigns the
   * values it reads to settings fields (the assignments are sorted by the
   * group of settings each option writes), switches booleans on and off as
   * Writes says, and sets main's local flags. -version leaves main
   * before any branch runs; -quiet, -v, -verbose and -log-time only configure
   * the logger, so they change nothing here.
   */
  function Assign(ext: Externals, st: ScanState, f: Flag, values: seq<string>): ScanState {
    var s := st.settings;
    ScanState(
      s.(geometry := AssignGeometry(ext, f, values, s.geometry),
         gridding := AssignGridding(ext, f, values, s.gridding),
         weighting := AssignWeighting(ext, f, values, s.weighting),
         selection := AssignSelection(ext, f, values, s.selection),
         deconvolution := AssignDeconvolution(ext, f, values, s.deconvolution),
         restoration := AssignRestoration(ext, f, values, s.restoration),
         run := AssignRun(ext, f, values, s.run),
         enabled := Switched(s.enabled, f)),
      st.mfsWeighting || f.MFSWeighting?,
      st.noMFSWeighting || f.NoMFSWeighting?,
      st.predictionMode || f.Predict?)
  }

  /** The options that write the geometry settings. */
  function AssignGeometry(ext: Externals, f: Flag, values: seq<string>, geo: ImageGeometry): ImageGeometry {
    var v1, v2 := At(values, 0), At(values, 1);
    if f.Size? then geo.(untrimmedImageWidth := ext.atoi(v1), untrimmedImageHeight := ext.atoi(v2))
    else if f.Trim? then geo.(trimmedImageWidth := ext.atoi(v1), trimmedImageHeight := ext.atoi(v2))
    else if f.Scale? then
      (var scale := ext.parseAngle(v1, Degrees);
       geo.(pixelScaleX := scale, pixelScaleY := scale))
    else geo
  }

  /** The options that write the gridding settings. */
  function AssignGridding(ext: Externals, f: Flag, values: seq<string>, grid: Gridding): Gridding {
    var v1, v2 := At(values, 0), At(values, 1);
    if f.NWLayers? then grid.(nWLayers := ext.atoi(v1))
    else if f.NWLayersForSize? then grid.(widthForNWCalculation := ext.atoi(v1), heightForNWCalculation := ext.atoi(v2))
    else if f.GKernelSize? then grid.(antialiasingKernelSize := ext.atoi(v1))
    else if f.Oversampling? then grid.(overSamplingFactor := ext.atoi(v1))
    else if f.MaxW? then grid.(wLimit := ext.atof(v1))
    else grid
  }

  /** The options that write the weighting settings. */
  function AssignWeighting(ext: Externals, f: Flag, values: seq<string>, wt: Weighting): Weighting {
    var v1 := At(values, 0);
    if f.TaperGaussian? then
      (var size := ext.parseAngle(v1, Arcseconds);
       wt.(gaussianTaperBeamSize := size))
    else if f.TaperEdge? then wt.(edgeTaperInLambda := ext.atof(v1))
    else if f.TaperEdgeTukey? then wt.(edgeTukeyTaperInLambda := ext.atof(v1))
    else if f.TaperTukey? then wt.(tukeyTaperInLambda := ext.atof(v1))
    else if f.TaperInnerTukey? then wt.(tukeyInnerTaperInLambda := ext.atof(v1))
    else if f.WeightingRankFilter? then wt.(rankFilterLevel := ext.atof(v1))
    else if f.WeightingRankFilterSize? then wt.(rankFilterSize := ext.atoi(v1))
    else if f.SuperWeight? then wt.(weightMode := wt.weightMode.(superWeight := ext.atof(v1)))
    else wt
  }

  /** The options that write the selection settings. */
  function AssignSelection(ext: Externals, f: Flag, values: seq<string>, sel: Selection): Selection {
    var v1, v2 := At(values, 0), At(values, 1);
    if f.DataColumn? then sel.(dataColumnName := v1)
    else if f.Pol? then sel.(polarizations := ext.parsePolarizations(v1))
    else if f.Interval? then sel.(startTimestep := ext.atoi(v1), endTimestep := ext.atoi(v2))
    else if f.IntervalsOut? then sel.(intervalsOut := ext.atoi(v1))
    else if f.ChannelRange? then sel.(startChannel := ext.atoi(v1), endChannel := ext.atoi(v2))
    else if f.ChannelsOut? then sel.(channelsOut := ext.atoi(v1))
    else if f.Field? then sel.(fieldId := ext.atoi(v1))
    else if f.MaxUVWInMeters? then sel.(maxUVWInMeters := ext.atof(v1))
    else if f.MinUVWInMeters? then sel.(minUVWInMeters := ext.atof(v1))
    else if f.MaxUVInLambda? then sel.(maxUVInLambda := ext.atof(v1))
    else if f.MinUVInLambda? then sel.(minUVInLambda := ext.atof(v1))
    else sel
  }

  /** The options that write the deconvolution settings. */
  function AssignDeconvolution(ext: Externals, f: Flag, values: seq<string>, dec: Deconvolution): Deconvolution {
    var v1 := At(values, 0);
    if f.Gain? then dec.(deconvolutionGain := ext.atof(v1))
    else if f.MGain? then dec.(deconvolutionMGain := ext.atof(v1))
    else if f.NIter? then dec.(deconvolutionIterationCount := ext.atoi(v1))
    else if f.Threshold? then dec.(deconvolutionThreshold := ext.atof(v1))
    else if f.MoreSaneExt? then dec.(moreSaneLocation := v1)
    else if f.MoreSaneArg? then dec.(moreSaneArgs := v1)
    else if f.MoreSaneSL? then
      (var levels := ext.parseDoubleList(v1, dec.moreSaneSigmaLevels);
       dec.(moreSaneSigmaLevels := levels))
    else if f.MultiscaleThresholdBias? then dec.(multiscaleDeconvolutionThresholdBias := ext.atof(v1))
    else if f.MultiscaleScaleBias? then dec.(multiscaleDeconvolutionScaleBias := ext.atof(v1))
    else if f.MultiscaleScales? then
      (var scales := ext.parseDoubleList(v1, dec.multiscaleScaleList);
       dec.(multiscaleScaleList := scales))
    // The -cleanborder value is a percentage.
    else if f.CleanBorder? then dec.(deconvolutionBorderRatio := ext.atof(v1) * 0.01)
    else if f.FitsMask? then dec.(fitsDeconvolutionMask := v1)
    else if f.CasaMask? then dec.(casaDeconvolutionMask := v1)
    else if f.FitSpectralPol? then
      dec.(spectralFittingMode := PolynomialSpectralFitting, spectralFittingTerms := ext.atoi(v1))
    else if f.FitSpectralLogPol? then
      dec.(spectralFittingMode := LogPolynomialSpectralFitting, spectralFittingTerms := ext.atoi(v1))
    else if f.DeconvolutionChannels? then dec.(deconvolutionChannelCount := ext.atoi(v1))
    else dec
  }

  /** The options that write the restoration settings. */
  function AssignRestoration(ext: Externals, f: Flag, values: seq<string>, res: Restoration): Restoration {
    var v1, v2, v3 := At(values, 0), At(values, 1), At(values, 2);
    if f.BeamSize? then
      (var beam := ext.parseAngle(v1, Arcseconds);
       res.(manualBeamMajorSize := beam, manualBeamMinorSize := beam, manualBeamPA := 0.0))
    else if f.BeamShape? then
      (var major, minor, pa :=
         ext.parseAngle(v1, Arcseconds), ext.parseAngle(v2, Arcseconds), ext.parseAngle(v3, Degrees);
       res.(manualBeamMajorSize := major, manualBeamMinorSize := minor, manualBeamPA := pa))
    else res
  }

  /** The options that write the run settings. */
  function AssignRun(ext: Externals, f: Flag, values: seq<string>, run: RunControl): RunControl {
    var v1 := At(values, 0);
    if f.TempDir? then run.(temporaryDirectory := v1)
    else if f.PredictChannels? then run.(predictionChannels := ext.atoi(v1))
    else if f.Name? then run.(prefixName := v1)
    else if f.Threads? then run.(threadCount := ext.atoi(v1))
    // The -mem value is a percentage of the system memory.
    else if f.Mem? then run.(memFraction := ext.atof(v1) / 100.0)
    else if f.AbsMem? then run.(absMemLimit := ext.atof(v1))
    else run
  }

  /**
   * One option at argv[argi], already resolved to `f` and given as `param`,
   * with `rest` the tokens after it: -version ends the scan; an option whose
   * values run past the end of argv fails; otherwise the option's effect is
   * applied to exactly the values it reads and the loop goes on after the
   * tokens it consumes.
   */
  function Apply(ext: Externals, st: ScanState, f: Flag, param: string, rest: seq<string>, argi: nat)
    : (r: StepOutcome)
    ensures r.ShowVersion? <==> f.Version?
    ensures r.Continue? ==> r.next == argi + 1 + Arity(f, BriggsFollows(rest)) <= argi + |rest| + 2
    ensures r.Throw? ==> !r.failure.UnknownParameter? && !r.failure.NoInputMeasurementSets?
  {
    var briggs := BriggsFollows(rest);
    var read := ValuesRead(f, briggs);
    if f.Version? then ShowVersion
    else if read > |rest| then Throw(MissingArgument(param))
    else
      match Effect(ext, st, f, rest[..read])
      case Ok(next) => Continue(next, argi + 1 + Arity(f, briggs))
      case Err(e) => Throw(e)
  }


  /** One pass of the scanning loop at argv[argi], a token that starts with '-'. */
  function Step(ext: Externals, st: ScanState, argv: seq<string>, argi: nat): (r: StepOutcome)
    requires 1 <= argi < |argv| && IsFlag(argv[argi])
    ensures r.Continue? ==> argi < r.next <= |argv| + 1
    ensures Lookup(Param(argv[argi])).None? ==> r == Throw(UnknownParameter(Param(argv[argi])))
    ensures r.Throw? && r.failure.UnknownParameter? ==> r.failure.param == Param(argv[argi])
    ensures r.Throw? ==> !r.failure.NoInputMeasurementSets?
  {
    var param := Param(argv[argi]);
    match Lookup(param)
    case None => Throw(UnknownParameter(param))
    case Some(f) => Apply(ext, st, f, param, argv[argi + 1..], argi)
  }

  /** A flag is rejected as unknown exactly when no option has its name. */
  lemma StepUnknownParameter(ext: Externals, st: ScanState, argv: seq<string>, argi: nat)
    requires 1 <= argi < |argv| && IsFlag(argv[argi])
    ensures (var r := Step(ext, st, argv, argi);
             r.Throw? && r.failure.UnknownParameter? <==> !IsOptionName(Param(argv[argi])))
  {
    LookupIsFirstMatch(Param(argv[argi]));
    FirstMatchSpec(OptionNames(), Param(argv[argi]));
  }

  /**
   * A known option throws MissingArgument exactly when it reads more tokens
   * than argv has left after it; -version and -multiscale-normalize-response
   * never do.
   */
  lemma StepMissingArgument(ext: Externals, st: ScanState, argv: seq<string>, argi: nat)
    requires 1 <= argi < |argv| && IsFlag(argv[argi])
    requires Lookup(Param(argv[argi])).Some?
    ensures var f := Lookup(Param(argv[argi])).value;
            Step(ext, st, argv, argi) == Throw(MissingArgument(Param(argv[argi])))
            <==> !f.Version? && argi + ValuesRead(f, BriggsFollows(argv[argi + 1..])) >= |argv|
    ensures Lookup(Param(argv[argi])).value.MultiscaleNormalizeResponse? ==>
              !(Step(ext, st, argv, argi).Throw? && Step(ext, st, argv, argi).failure.MissingArgument?)
  {
  }

  /** How the scanning loop ends. */
  datatype ScanResult = Scanned(state: ScanState, stop: nat) | VersionShown | Aborted(failure: Failure)

  /**
   * The scanning loop from argv[argi] on: it runs while the current token
   * starts with '-' and stops at the first index where it does not, or past
   * the end of argv.
   */
  function ScanFrom(ext: Externals, st: ScanState, argv: seq<string>, argi: nat): (r: ScanResult)
    requires 1 <= argi <= |argv| + 1
    ensures r.Scanned? ==> argi <= r.stop <= |argv| + 1
    ensures r.Scanned? && r.stop < |argv| ==> !IsFlag(argv[r.stop])
    ensures r.Aborted? ==> !r.failure.NoInputMeasurementSets?
    decreases |argv| + 1 - argi
  {
    if argi < |argv| && IsFlag(argv[argi]) then
      match Step(ext, st, argv, argi)
      case Continue(next, nextArgi) => ScanFrom(ext, next, argv, nextArgi)
      case ShowVersion => VersionShown
      case Throw(failure) => Aborted(failure)
    else Scanned(st, argi)
  }

  /** Which of the engine's two entry points main calls. */
  datatype EntryPoint = RunPredict | RunClean

  /** How main ends: a return value, an exception, or a call into the engine. */
  datatype MainResult =
    | Exit(code: int)
    | Thrown(failure: Failure)
    // main calls the engine with these settings and this command line, then returns 0 (line 839)
    | Run(entry: EntryPoint, settings: Settings, commandLine: string)

  /** The space-prefixed echo of each argument, in order. */
  function Echo(args: seq<string>): string {
    if args == [] then "" else Echo(args[..|args| - 1]) + " " + args[|args| - 1]
  }

  /** The command line handed to the engine: "wsclean" and the arguments. */
  function CommandLine(argv: seq<string>): string
    requires |argv| >= 1
  {
    "wsclean" + Echo(argv[1..])
  }

  /** The derived mfsWeighting: joined-channel cleaning implies it unless -nomfsweighting was given. */
  function DerivedMfsWeighting(joinedFrequencyCleaning: bool, noMFSWeighting: bool, mfsWeighting: bool)
    : bool
  {
    (joinedFrequencyCleaning && !noMFSWeighting) || mfsWeighting
  }

  /** The settings after the scan: mfsWeighting derived, the remaining tokens appended as input files. */
  function Finish(st: ScanState, argv: seq<string>, stop: nat): Settings
    requires stop <= |argv|
  {
    var s := st.settings;
    var mfs := DerivedMfsWeighting(ChannelsJoined in s.enabled, st.noMFSWeighting, st.mfsWeighting);
    s.(weighting := s.weighting.(mfsWeighting := mfs),
       run := s.run.(filenames := s.run.filenames + argv[stop..]))
  }

  /**
   * The whole of main. With fewer than two arguments it returns -1; -version
   * returns 0; a scan that leaves no token for the input list throws. The
   * check for that rejects both an index at and one past the end of argv
   * (Findings.MainOutcomeAsWritten has the check as WSClean writes it).
   */
  function MainOutcome(ext: Externals, defaults: Settings, argv: seq<string>): MainResult {
    if |argv| < 2 then Exit(-1)
    else
      match ScanFrom(ext, Initial(defaults), argv, 1)
      case VersionShown => Exit(0)
      case Aborted(failure) => Thrown(failure)
      case Scanned(st, stop) =>
        if stop >= |argv| then Thrown(NoInputMeasurementSets)
        else Run(if st.predictionMode then RunPredict else RunClean, Finish(st, argv, stop), CommandLine(argv))
  }
}

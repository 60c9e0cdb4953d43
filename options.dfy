/**
 * The option vocabulary of wsclean's command line: how a token is recognised
 * as an option, how its name is taken out of it, which option a name selects,
 * how many following tokens each option consumes, and the alias tables of the
 * options whose value is an enumerated mode.
 */
module OptionTable {
  import opened Wrappers
  import opened Settings

  /**
   * The scan goes on while the current token's first character is '-'. An
   * empty token stops it: its first character is the string terminator.
   */
  predicate IsFlag(token: string) {
    |token| > 0 && token[0] == '-'
  }

  /** The option name: the token without its one or two leading dashes. */
  function Param(token: string): (name: string)
    requires IsFlag(token)
    ensures token == "-" + name || token == "--" + name
    ensures token == "--" + name <==> |token| >= 2 && token[1] == '-'
  {
    if |token| >= 2 && token[1] == '-' then token[2..] else token[1..]
  }

  /** One constructor per option the scanner recognises, in the order it tests them. */
  datatype Flag =
    Version | Quiet | Verbose | LogTime | TempDir | SaveWeights | SaveUV | Predict |
    PredictChannels | SubtractModel | Size | Trim | Scale | NWLayers | NWLayersForSize | Gain |
    MGain | NIter | Threshold | DataColumn | Pol | ApplyPrimaryBeam | ReusePrimaryBeam |
    UseDifferentialLofarBeam | Negative | NoNegative | StopNegative | IUWT | MoreSaneExt |
    MoreSaneArg | MoreSaneSL | MakePSF | MakePSFOnly | SaveGridding | DFTPrediction |
    DFTWithBeam | Name | GridModeFlag | SmallInversion | NoSmallInversion | Interval |
    IntervalsOut | ChannelRange | ChannelsOut | JoinPolarizations | JoinChannels |
    MFSWeighting | TaperGaussian | TaperEdge | TaperEdgeTukey | TaperTukey | TaperInnerTukey |
    Multiscale | FastMultiscale | MultiscaleThresholdBias | MultiscaleScaleBias |
    MultiscaleNormalizeResponse | MultiscaleScales | WeightingRankFilter |
    WeightingRankFilterSize | CleanBorder | FitsMask | CasaMask | NoMFSWeighting |
    FitSpectralPol | FitSpectralLogPol | DeconvolutionChannels | Field | Weight | SuperWeight |
    BeamSize | BeamShape | FitBeam | NoFitBeam | TheoreticBeam | CircularBeam |
    EllipticalBeam | GKernelSize | Oversampling | Reorder | NoReorder | UpdateModelRequired |
    NoUpdateModelRequired | Threads | Mem | AbsMem | MaxUVWInMeters | MinUVWInMeters |
    MaxUVInLambda | MinUVInLambda | MaxW | NoNormalizeForWeighting |
    VisibilityWeightingModeFlag | UseIDG

  /**
   * The scanner's chain of name tests, kept as a tree so that each test is a
   * few steps from the root: a search goes left to right, so the tests are
   * tried in the order of the tree's leaves.
   */
  datatype NameTests = Test(name: string, flag: Flag) | Both(first: NameTests, second: NameTests)

  /** The tests in the order they are tried. */
  function Entries(t: NameTests): seq<(string, Flag)> {
    match t
    case Test(name, flag) => [(name, flag)]
    case Both(first, second) => Entries(first) + Entries(second)
  }

  /**
   * The scanner's name tests in source order, each name with the option it
   * selects. "v" and "verbose" select the same option. "joinchannels" is
   * compared twice; the second test can never be reached.
   */
  const OptionTests: NameTests :=
    Both(
      Both(
        Both(
          Both(
            Both(
              Both(
                Test("version", Version),
                Both(Test("quiet", Quiet), Test("v", Verbose))),
              Both(
                Test("verbose", Verbose),
                Both(Test("log-time", LogTime), Test("tempdir", TempDir)))),
            Both(
              Both(
                Test("saveweights", SaveWeights),
                Both(Test("saveuv", SaveUV), Test("predict", Predict))),
              Both(
                Test("predict-channels", PredictChannels),
                Both(Test("subtract-model", SubtractModel), Test("size", Size))))),
          Both(
            Both(
              Both(
                Test("trim", Trim),
                Both(Test("scale", Scale), Test("nwlayers", NWLayers))),
              Both(
                Test("nwlayers-for-size", NWLayersForSize),
                Both(Test("gain", Gain), Test("mgain", MGain)))),
            Both(
              Both(
                Test("niter", NIter),
                Both(Test("threshold", Threshold), Test("datacolumn", DataColumn))),
              Both(
                Test("pol", Pol),
                Both(Test("apply-primary-beam", ApplyPrimaryBeam), Test("reuse-primary-beam", ReusePrimaryBeam)))))),
        Both(
          Both(
            Both(
              Both(
                Test("use-differential-lofar-beam", UseDifferentialLofarBeam),
                Both(Test("negative", Negative), Test("nonegative", NoNegative))),
              Both(
                Test("stopnegative", StopNegative),
                Both(Test("iuwt", IUWT), Test("moresane-ext", MoreSaneExt)))),
            Both(
              Both(
                Test("moresane-arg", MoreSaneArg),
                Both(Test("moresane-sl", MoreSaneSL), Test("make-psf", MakePSF))),
              Both(
                Test("make-psf-only", MakePSFOnly),
                Both(Test("savegridding", SaveGridding), Test("dft-prediction", DFTPrediction))))),
          Both(
            Both(
              Both(
                Test("dft-with-beam", DFTWithBeam),
                Both(Test("name", Name), Test("gridmode", GridModeFlag))),
              Both(
                Test("smallinversion", SmallInversion),
                Both(Test("nosmallinversion", NoSmallInversion), Test("interval", Interval)))),
            Both(
              Both(
                Test("intervalsout", IntervalsOut),
                Both(Test("channelrange", ChannelRange), Test("channelsout", ChannelsOut))),
              Both(
                Test("joinpolarizations", JoinPolarizations),
                Both(Test("joinchannels", JoinChannels), Test("mfsweighting", MFSWeighting))))))),
      Both(
        Both(
          Both(
            Both(
              Both(
                Test("taper-gaussian", TaperGaussian),
                Both(Test("taper-edge", TaperEdge), Test("taper-edge-tukey", TaperEdgeTukey))),
              Both(
                Test("taper-tukey", TaperTukey),
                Both(Test("taper-inner-tukey", TaperInnerTukey), Test("multiscale", Multiscale)))),
            Both(
              Both(
                Test("fast-multiscale", FastMultiscale),
                Both(Test("multiscale-threshold-bias", MultiscaleThresholdBias), Test("multiscale-scale-bias", MultiscaleScaleBias))),
              Both(
                Test("multiscale-normalize-response", MultiscaleNormalizeResponse),
                Both(Test("multiscale-scales", MultiscaleScales), Test("weighting-rank-filter", WeightingRankFilter))))),
          Both(
            Both(
              Both(
                Test("weighting-rank-filter-size", WeightingRankFilterSize),
                Both(Test("cleanborder", CleanBorder), Test("fitsmask", FitsMask))),
              Both(
                Test("casamask", CasaMask),
                Both(Test("nomfsweighting", NoMFSWeighting), Test("joinchannels", JoinChannels)))),
            Both(
              Both(
                Test("fit-spectral-pol", FitSpectralPol),
                Both(Test("fit-spectral-log-pol", FitSpectralLogPol), Test("deconvolution-channels", DeconvolutionChannels))),
              Both(
                Test("field", Field),
                Both(Test("weight", Weight), Test("superweight", SuperWeight)))))),
        Both(
          Both(
            Both(
              Both(
                Test("beamsize", BeamSize),
                Both(Test("beamshape", BeamShape), Test("fitbeam", FitBeam))),
              Both(
                Test("nofitbeam", NoFitBeam),
                Both(Test("theoreticbeam", TheoreticBeam), Test("circularbeam", CircularBeam)))),
            Both(
              Both(
                Test("ellipticalbeam", EllipticalBeam),
                Both(Test("gkernelsize", GKernelSize), Test("oversampling", Oversampling))),
              Both(
                Test("reorder", Reorder),
                Both(Test("no-reorder", NoReorder), Test("update-model-required", UpdateModelRequired))))),
          Both(
            Both(
              Both(
                Test("no-update-model-required", NoUpdateModelRequired),
                Both(Test("j", Threads), Test("mem", Mem))),
              Both(
                Test("absmem", AbsMem),
                Both(Test("maxuvw-m", MaxUVWInMeters), Test("minuvw-m", MinUVWInMeters)))),
            Both(
              Both(
                Test("maxuv-l", MaxUVInLambda),
                Both(Test("minuv-l", MinUVInLambda), Test("maxw", MaxW))),
              Both(
                Test("no-normalize-for-weighting", NoNormalizeForWeighting),
                Both(Test("visibility-weighting-mode", VisibilityWeightingModeFlag), Test("use-idg", UseIDG))))))))

  /** The option selected by the first entry of the table whose name is the parameter. */
  function FirstMatch(table: seq<(string, Flag)>, param: string): Option<Flag> {
    if table == [] then None
    else if table[0].0 == param then Some(table[0].1)
    else FirstMatch(table[1..], param)
  }

  /**
   * FirstMatch finds nothing exactly when no entry has the name, and otherwise
   * returns the flag of the first entry that has it.
   */
  lemma {:induction false} FirstMatchSpec(table: seq<(string, Flag)>, param: string)
    ensures FirstMatch(table, param).None? <==> forall i :: 0 <= i < |table| ==> table[i].0 != param
    ensures FirstMatch(table, param).Some? ==>
      exists i :: 0 <= i < |table| && table[i] == (param, FirstMatch(table, param).value)
                  && forall j :: 0 <= j < i ==> table[j].0 != param
  {
    if table != [] && table[0].0 != param {
      FirstMatchSpec(table[1..], param);
      assert forall i :: 1 <= i < |table| ==> table[i] == table[1..][i - 1];
      if FirstMatch(table, param).Some? {
        var k :| 0 <= k < |table[1..]| && table[1..][k] == (param, FirstMatch(table, param).value)
                 && forall j :: 0 <= j < k ==> table[1..][j].0 != param;
        assert table[k + 1] == (param, FirstMatch(table, param).value);
      }
    } else if table != [] {
      assert table[0] == (param, FirstMatch(table, param).value);
    }
  }

  /** The search of a tree of tests: the first subtree's tests come first. */
  function Find(t: NameTests, param: string): Option<Flag> {
    match t
    case Test(name, flag) => if name == param then Some(flag) else None
    case Both(first, second) =>
      match Find(first, param)
      case Some(flag) => Some(flag)
      case None => Find(second, param)
  }

  /** A first match in a concatenation is the first match of the first part, if any. */
  lemma {:induction false} FirstMatchAppend(a: seq<(string, Flag)>, b: seq<(string, Flag)>, param: string)
    ensures FirstMatch(a + b, param) == if FirstMatch(a, param).Some? then FirstMatch(a, param) else FirstMatch(b, param)
  {
    if a != [] {
      assert (a + b)[0] == a[0];
      if a[0].0 != param {
        assert (a + b)[1..] == a[1..] + b;
        FirstMatchAppend(a[1..], b, param);
      }
    } else {
      assert a + b == b;
    }
  }

  /** Searching the tree is taking the first match among its tests in order. */
  lemma {:induction false} FindIsFirstMatch(t: NameTests, param: string)
    ensures Find(t, param) == FirstMatch(Entries(t), param)
  {
    match t
    case Test(name, flag) =>
      assert Entries(t)[1..] == [];
    case Both(first, second) =>
      FindIsFirstMatch(first, param);
      FindIsFirstMatch(second, param);
      FirstMatchAppend(Entries(first), Entries(second), param);
  }

  /** The scanner's name tests as a list, in source order. */
  function OptionNames(): seq<(string, Flag)> {
    Entries(OptionTests)
  }

  /** Which option a name selects, if any: the first test the name passes. */
  function Lookup(param: string): Option<Flag> {
    Find(OptionTests, param)
  }

  /** Lookup takes the first of the scanner's tests, in source order, that the name passes. */
  lemma LookupIsFirstMatch(param: string)
    ensures Lookup(param) == FirstMatch(OptionNames(), param)
  {
    FindIsFirstMatch(OptionTests, param);
  }

  /** The names the scanner recognises. */
  ghost predicate IsOptionName(param: string) {
    exists i :: 0 <= i < |OptionNames()| && OptionNames()[i].0 == param
  }

  /**
   * How many tokens after the option's own token its branch consumes: the
   * number of times the branch advances past the option before the loop moves
   * on. `-weight` consumes one more when its value is "briggs".
   */
  function Arity(f: Flag, briggs: bool): nat {
    match f
    case Size | Trim | NWLayersForSize | Interval | ChannelRange => 2
    case BeamShape => 3
    case Weight => if briggs then 2 else 1
    case TempDir | PredictChannels | Scale | NWLayers | Gain | MGain | NIter | Threshold
      | DataColumn | Pol | MoreSaneExt | MoreSaneArg | MoreSaneSL | Name | GridModeFlag
      | IntervalsOut | ChannelsOut | TaperGaussian | TaperEdge | TaperEdgeTukey | TaperTukey
      | TaperInnerTukey | MultiscaleThresholdBias | MultiscaleScaleBias
      | MultiscaleNormalizeResponse | MultiscaleScales | WeightingRankFilter
      | WeightingRankFilterSize | CleanBorder | FitsMask | CasaMask | FitSpectralPol
      | FitSpectralLogPol | DeconvolutionChannels | Field | SuperWeight | BeamSize
      | GKernelSize | Oversampling | Threads | Mem | AbsMem | MaxUVWInMeters
      | MinUVWInMeters | MaxUVInLambda | MinUVInLambda | MaxW | VisibilityWeightingModeFlag => 1
    case Version | Quiet | Verbose | LogTime | SaveWeights | SaveUV | Predict | SubtractModel
      | ApplyPrimaryBeam | ReusePrimaryBeam | UseDifferentialLofarBeam | Negative | NoNegative
      | StopNegative | IUWT | MakePSF | MakePSFOnly | SaveGridding | DFTPrediction
      | DFTWithBeam | SmallInversion | NoSmallInversion | JoinPolarizations | JoinChannels
      | MFSWeighting | Multiscale | FastMultiscale | NoMFSWeighting | FitBeam | NoFitBeam
      | TheoreticBeam | CircularBeam | EllipticalBeam | Reorder | NoReorder
      | UpdateModelRequired | NoUpdateModelRequired | NoNormalizeForWeighting | UseIDG => 0
  }

  /**
   * How many of the consumed tokens the branch actually reads. Only
   * multiscale-normalize-response consumes a token it never looks at.
   */
  function ValuesRead(f: Flag, briggs: bool): (n: nat)
    ensures n <= Arity(f, briggs)
    ensures n < Arity(f, briggs) <==> f.MultiscaleNormalizeResponse?
  {
    if f.MultiscaleNormalizeResponse? then 0 else Arity(f, briggs)
  }

  /** boost::to_lower in the "C" locale: only 'A'..'Z' change. */
  function LowerChar(c: char): char {
    if 'A' <= c <= 'Z' then (c as int - 'A' as int + 'a' as int) as char else c
  }

  /**
   * The token lower-cased: no upper-case letter is left, each upper-case
   * letter becomes the letter 32 code points on, and every other character
   * stays as it was.
   */
  function ToLower(s: string): (r: string)
    ensures |r| == |s|
    ensures forall i :: 0 <= i < |r| ==> !('A' <= r[i] <= 'Z')
    ensures forall i :: 0 <= i < |s| && 'A' <= s[i] <= 'Z' ==> r[i] as int == s[i] as int + 32
    ensures forall i :: 0 <= i < |s| && !('A' <= s[i] <= 'Z') ==> r[i] == s[i]
  {
    seq(|s|, i requires 0 <= i < |s| => LowerChar(s[i]))
  }

  /** Every spelling -gridmode accepts, after lower-casing, and the kernel it selects. */
  const GridModeAliases: map<string, GridMode> := map[
    "kb" := KaiserBesselKernel, "kaiserbessel" := KaiserBesselKernel,
    "kaiser-bessel" := KaiserBesselKernel,
    "rect" := RectangularKernel,
    "nn" := NearestNeighbourGridding, "nearestneighbour" := NearestNeighbourGridding]

  /** The -gridmode value: lower-cased, then compared with each spelling in turn. */
  function ParseGridMode(token: string): Option<GridMode> {
    var mode := ToLower(token);
    if mode == "kb" || mode == "kaiserbessel" || mode == "kaiser-bessel" then Some(KaiserBesselKernel)
    else if mode == "rect" then Some(RectangularKernel)
    else if mode == "nn" || mode == "nearestneighbour" then Some(NearestNeighbourGridding)
    else None
  }

  /** Every spelling -visibility-weighting-mode accepts, after lower-casing. */
  const VisibilityWeightingAliases: map<string, VisibilityWeightingMode> := map[
    "normal" := NormalVisibilityWeighting,
    "squared" := SquaredVisibilityWeighting,
    "unit" := UnitVisibilityWeighting]

  /** The -visibility-weighting-mode value: lower-cased, then compared. */
  function ParseVisibilityWeightingMode(token: string): Option<VisibilityWeightingMode> {
    var mode := ToLower(token);
    if mode == "normal" then Some(NormalVisibilityWeighting)
    else if mode == "squared" then Some(SquaredVisibilityWeighting)
    else if mode == "unit" then Some(UnitVisibilityWeighting)
    else None
  }

  /** Lower-casing a lower-cased string changes nothing. */
  lemma ToLowerIdempotent(s: string)
    ensures ToLower(ToLower(s)) == ToLower(s)
  {
    var once := ToLower(s);
    assert forall i :: 0 <= i < |once| ==> LowerChar(once[i]) == once[i];
  }

  /** -gridmode accepts exactly the aliases, in any letter case. */
  lemma ParseGridModeSpec(token: string)
    ensures ParseGridMode(token).Some? <==> ToLower(token) in GridModeAliases
    ensures ParseGridMode(token).Some? ==> ParseGridMode(token).value == GridModeAliases[ToLower(token)]
  {
  }

  /** -visibility-weighting-mode accepts exactly the aliases, in any letter case. */
  lemma ParseVisibilityWeightingModeSpec(token: string)
    ensures ParseVisibilityWeightingMode(token).Some? <==> ToLower(token) in VisibilityWeightingAliases
    ensures ParseVisibilityWeightingMode(token).Some? ==>
      ParseVisibilityWeightingMode(token).value == VisibilityWeightingAliases[ToLower(token)]
  {
  }
}

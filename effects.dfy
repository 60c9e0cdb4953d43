/**
 * What single options do: how far each moves the scan, which fields the
 * options with several values write, and which values the three options
 * with an enumerated value accept.
 */
module OptionEffects {
  import opened Wrappers
  import opened Conversions
  import opened Settings
  import opened OptionTable
  import opened State
  import opened Scanner
  import opened Switches

  /** A step that goes on resumes right after the option's token and the tokens its arity says. */
  lemma StepAdvances(ext: Externals, st: ScanState, argv: seq<string>, argi: nat)
    requires 1 <= argi < |argv| && IsFlag(argv[argi])
    requires Step(ext, st, argv, argi).Continue?
    ensures Lookup(Param(argv[argi])).Some?
    ensures Step(ext, st, argv, argi).next
            == argi + 1 + Arity(Lookup(Param(argv[argi])).value, BriggsFollows(argv[argi + 1..]))
  {
  }

  /**
   * -size and -trim consume two tokens and write a width from the first and
   * a height from the second; nothing else changes.
   */
  lemma SizeAndTrim(ext: Externals, st: ScanState, a: string, b: string)
    ensures Arity(Size, false) == Arity(Trim, false) == 2
    ensures var geo := st.settings.geometry;
            Effect(ext, st, Size, [a, b])
            == Ok(st.(settings := st.settings.(geometry :=
                    geo.(untrimmedImageWidth := ext.atoi(a), untrimmedImageHeight := ext.atoi(b)))))
    ensures var geo := st.settings.geometry;
            Effect(ext, st, Trim, [a, b])
            == Ok(st.(settings := st.settings.(geometry :=
                    geo.(trimmedImageWidth := ext.atoi(a), trimmedImageHeight := ext.atoi(b)))))
  {
    SwitchedUnwritten(st.settings.enabled, Size);
    SwitchedUnwritten(st.settings.enabled, Trim);
  }

  /**
   * -interval and -channelrange consume two tokens and write a start from
   * the first and an end from the second; nothing else changes.
   */
  lemma IntervalAndChannelRange(ext: Externals, st: ScanState, a: string, b: string)
    ensures Arity(Interval, false) == Arity(ChannelRange, false) == 2
    ensures var sel := st.settings.selection;
            Effect(ext, st, Interval, [a, b])
            == Ok(st.(settings := st.settings.(selection :=
                    sel.(startTimestep := ext.atoi(a), endTimestep := ext.atoi(b)))))
    ensures var sel := st.settings.selection;
            Effect(ext, st, ChannelRange, [a, b])
            == Ok(st.(settings := st.settings.(selection :=
                    sel.(startChannel := ext.atoi(a), endChannel := ext.atoi(b)))))
  {
    SwitchedUnwritten(st.settings.enabled, Interval);
    SwitchedUnwritten(st.settings.enabled, ChannelRange);
  }

  /**
   * -nwlayers-for-size consumes two tokens, the image size the w-layer count
   * is computed for; nothing else changes.
   */
  lemma NWLayersForSizeValues(ext: Externals, st: ScanState, a: string, b: string)
    ensures Arity(NWLayersForSize, false) == 2
    ensures var grid := st.settings.gridding;
            Effect(ext, st, NWLayersForSize, [a, b])
            == Ok(st.(settings := st.settings.(gridding :=
                    grid.(widthForNWCalculation := ext.atoi(a), heightForNWCalculation := ext.atoi(b)))))
  {
    SwitchedUnwritten(st.settings.enabled, NWLayersForSize);
  }

  /**
   * -scale gives square pixels: both scales are the one angle, in degrees by
   * default; nothing else changes.
   */
  lemma ScaleSquarePixels(ext: Externals, st: ScanState, v: string)
    ensures Arity(Scale, false) == 1
    ensures var geo, scale := st.settings.geometry, ext.parseAngle(v, Degrees);
            Effect(ext, st, Scale, [v])
            == Ok(st.(settings := st.settings.(geometry := geo.(pixelScaleX := scale, pixelScaleY := scale))))
  {
    SwitchedUnwritten(st.settings.enabled, Scale);
  }

  /**
   * -beamsize gives a circular beam: major and minor axes both the value in
   * arcseconds, position angle 0; nothing else changes.
   */
  lemma BeamSizeCircular(ext: Externals, st: ScanState, v: string)
    ensures Arity(BeamSize, false) == 1
    ensures var res, beam := st.settings.restoration, ext.parseAngle(v, Arcseconds);
            Effect(ext, st, BeamSize, [v])
            == Ok(st.(settings := st.settings.(restoration :=
                    res.(manualBeamMajorSize := beam, manualBeamMinorSize := beam, manualBeamPA := 0.0))))
  {
    SwitchedUnwritten(st.settings.enabled, BeamSize);
  }

  /**
   * -beamshape consumes three tokens: the two axes in arcseconds and the
   * angle in degrees; nothing else changes.
   */
  lemma BeamShapeValues(ext: Externals, st: ScanState, major: string, minor: string, pa: string)
    ensures Arity(BeamShape, false) == 3
    ensures var res := st.settings.restoration;
            Effect(ext, st, BeamShape, [major, minor, pa])
            == Ok(st.(settings := st.settings.(restoration :=
                    res.(manualBeamMajorSize := ext.parseAngle(major, Arcseconds),
                         manualBeamMinorSize := ext.parseAngle(minor, Arcseconds),
                         manualBeamPA := ext.parseAngle(pa, Degrees)))))
  {
    SwitchedUnwritten(st.settings.enabled, BeamShape);
  }

  /**
   * "-weight briggs r" consumes two tokens and installs Briggs weighting
   * with robustness r; nothing else changes.
   */
  lemma WeightBriggs(ext: Externals, st: ScanState, r: string)
    ensures Arity(Weight, true) == 2 && Arity(Weight, false) == 1
    ensures var wt := st.settings.weighting;
            Effect(ext, st, Weight, ["briggs", r])
            == Ok(st.(settings := st.settings.(weighting :=
                    wt.(weightMode := WeightMode(BriggsWeighted(ext.atof(r)), ext.initialSuperWeight)))))
  {
  }

  /** -multiscale-normalize-response consumes one token but reads none. */
  lemma NormalizeResponseSkipsToken(ext: Externals, st: ScanState, v: string)
    ensures Arity(MultiscaleNormalizeResponse, false) == 1
    ensures ValuesRead(MultiscaleNormalizeResponse, false) == 0
    ensures Effect(ext, st, MultiscaleNormalizeResponse, [v]) == Effect(ext, st, MultiscaleNormalizeResponse, [])
  {
  }

  /**
   * -gridmode accepts exactly the aliases, in any letter case, and then
   * changes only the kernel, to the alias's; any other value throws with the
   * value as given.
   */
  lemma GridModeValues(ext: Externals, st: ScanState, v: string)
    ensures Effect(ext, st, GridModeFlag, [v]).Ok? <==> ToLower(v) in GridModeAliases
    ensures ToLower(v) in GridModeAliases ==>
              Effect(ext, st, GridModeFlag, [v])
              == Ok(st.(settings := st.settings.(gridding :=
                      st.settings.gridding.(gridMode := GridModeAliases[ToLower(v)]))))
    ensures Effect(ext, st, GridModeFlag, [v]).Err? ==>
              Effect(ext, st, GridModeFlag, [v]).error == InvalidGriddingMode(v)
  {
    ParseGridModeSpec(v);
  }

  /** Letter case does not matter to -gridmode. */
  lemma GridModeIgnoresCase(v: string)
    ensures ParseGridMode(ToLower(v)) == ParseGridMode(v)
  {
    ToLowerIdempotent(v);
  }

  /**
   * -visibility-weighting-mode accepts exactly normal, squared and unit, in
   * any letter case, and then changes only the mode; any other value throws
   * with the lower-cased value.
   */
  lemma VisibilityWeightingValues(ext: Externals, st: ScanState, v: string)
    ensures Effect(ext, st, VisibilityWeightingModeFlag, [v]).Ok? <==> ToLower(v) in VisibilityWeightingAliases
    ensures ToLower(v) in VisibilityWeightingAliases ==>
              Effect(ext, st, VisibilityWeightingModeFlag, [v])
              == Ok(st.(settings := st.settings.(weighting :=
                      st.settings.weighting.(visibilityWeightingMode := VisibilityWeightingAliases[ToLower(v)]))))
    ensures Effect(ext, st, VisibilityWeightingModeFlag, [v]).Err? ==>
              Effect(ext, st, VisibilityWeightingModeFlag, [v]).error == UnknownVisibilityWeightingMode(ToLower(v))
  {
    ParseVisibilityWeightingModeSpec(v);
  }

  /**
   * -weight is not lower-cased: only natural, uniform and briggs, exactly,
   * are accepted, and each installs a fresh WeightMode and changes nothing else.
   */
  lemma WeightValues(ext: Externals, st: ScanState, v: string, r: string)
    ensures Effect(ext, st, Weight, [v, r]).Ok? <==> v == "natural" || v == "uniform" || v == "briggs"
    ensures v == "natural" ==>
              Effect(ext, st, Weight, [v, r])
              == Ok(st.(settings := st.settings.(weighting :=
                      st.settings.weighting.(weightMode := WeightMode(NaturalWeighted, ext.initialSuperWeight)))))
    ensures v == "uniform" ==>
              Effect(ext, st, Weight, [v, r])
              == Ok(st.(settings := st.settings.(weighting :=
                      st.settings.weighting.(weightMode := WeightMode(UniformWeighted, ext.initialSuperWeight)))))
    ensures Effect(ext, st, Weight, [v, r]).Err? ==> Effect(ext, st, Weight, [v, r]).error == UnknownWeightingMode(v)
  {
  }

  /** The aliases in other letter cases, and a -weight value that is refused for its case. */
  lemma EnumExamples(ext: Externals, st: ScanState)
    ensures ParseGridMode("Kaiser-Bessel") == Some(KaiserBesselKernel)
    ensures ParseGridMode("NN") == Some(NearestNeighbourGridding)
    ensures ParseGridMode("sinc") == None
    ensures ParseVisibilityWeightingMode("Squared") == Some(SquaredVisibilityWeighting)
    ensures Effect(ext, st, Weight, ["Natural"]) == Err(UnknownWeightingMode("Natural"))
  {
    assert ToLower("Kaiser-Bessel") == "kaiser-bessel";
    assert ToLower("NN") == "nn";
    assert ToLower("sinc") == "sinc";
    assert ToLower("Squared") == "squared";
  }
}

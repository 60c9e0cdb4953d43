/**
 * main's check for a missing input list, as WSClean writes it. The check
 * only tests whether the scan stopped exactly at argc. The option
 * -multiscale-normalize-response consumes the token after it. When it is
 * the last token, the scan stops at argc + 1, the check lets that through,
 * and the loop that collects the input files starts past the end of argv.
 * MainOutcome uses the corrected check, which throws for any stop at or past argc.
 */
module Findings {
  import opened Wrappers
  import opened Conversions
  import opened Settings
  import opened OptionTable
  import opened State
  import opened Scanner
  import opened OptionEffects
  import opened LastFlagWins

  /** The input check as written: no input sets only when the scan stopped exactly at argc. */
  predicate InputCheckAsWritten(stop: nat, argc: nat) {
    stop == argc
  }

  /**
   * main with the check as written. A stop past argc gets through the check
   * and sends the file loop (`i != argc`, counting up from the stop) past the
   * end of argv, which is undefined; None stands for that.
   */
  function MainOutcomeAsWritten(ext: Externals, defaults: Settings, argv: seq<string>): Option<MainResult> {
    if |argv| < 2 then Some(Exit(-1))
    else
      match ScanFrom(ext, Initial(defaults), argv, 1)
      case VersionShown => Some(Exit(0))
      case Aborted(failure) => Some(Thrown(failure))
      case Scanned(st, stop) =>
        if InputCheckAsWritten(stop, |argv|) then Some(Thrown(NoInputMeasurementSets))
        else if stop > |argv| then None
        else Some(Run(if st.predictionMode then RunPredict else RunClean, Finish(st, argv, stop), CommandLine(argv)))
  }

  /**
   * The scan overshoots argv only through a -multiscale-normalize-response
   * that is the last token: every other option reads every token it consumes,
   * and only if those tokens are there.
   */
  lemma {:induction false} OvershootIsNormalizeResponse(ext: Externals, st: ScanState, argv: seq<string>, argi: nat)
    requires 1 <= argi <= |argv|
    requires ScanFrom(ext, st, argv, argi).Scanned? && ScanFrom(ext, st, argv, argi).stop == |argv| + 1
    ensures IsFlag(argv[|argv| - 1]) && Lookup(Param(argv[|argv| - 1])) == Some(MultiscaleNormalizeResponse)
    decreases |argv| + 1 - argi
  {
    var r := Step(ext, st, argv, argi);
    if r.next <= |argv| {
      OvershootIsNormalizeResponse(ext, r.state, argv, r.next);
    } else {
      StepAdvances(ext, st, argv, argi);
      StepEffect(ext, st, argv, argi);
    }
  }

  /**
   * The check as written agrees with the corrected one on every argument
   * vector except those ending in -multiscale-normalize-response, where it
   * lets an empty input list through.
   */
  lemma AsWrittenAgrees(ext: Externals, defaults: Settings, argv: seq<string>)
    ensures MainOutcomeAsWritten(ext, defaults, argv).Some? ==>
              MainOutcomeAsWritten(ext, defaults, argv).value == MainOutcome(ext, defaults, argv)
    ensures MainOutcomeAsWritten(ext, defaults, argv).None? ==>
              && MainOutcome(ext, defaults, argv) == Thrown(NoInputMeasurementSets)
              && IsFlag(argv[|argv| - 1])
              && Lookup(Param(argv[|argv| - 1])) == Some(MultiscaleNormalizeResponse)
  {
    if MainOutcomeAsWritten(ext, defaults, argv).None? {
      OvershootIsNormalizeResponse(ext, Initial(defaults), argv, 1);
    }
  }

  /** As the last token, -multiscale-normalize-response resumes the scan at argc + 1. */
  lemma NormalizeResponseLastStep(ext: Externals, st: ScanState)
    ensures var argv := ["wsclean", "-multiscale-normalize-response"];
            Step(ext, st, argv, 1).Continue? && Step(ext, st, argv, 1).next == 3
  {
    var argv := ["wsclean", "-multiscale-normalize-response"];
    assert Param(argv[1]) == "multiscale-normalize-response";
    NormalizeResponseResolves();
    NormalizeResponseApplies(ext, st);
  }

  /** The name multiscale-normalize-response resolves to its own option. */
  lemma NormalizeResponseResolves()
    ensures Lookup("multiscale-normalize-response") == Some(MultiscaleNormalizeResponse)
  {
  }

  /** With nothing after it, the option still goes on, as if it had consumed a token. */
  lemma NormalizeResponseApplies(ext: Externals, st: ScanState)
    ensures Apply(ext, st, MultiscaleNormalizeResponse, "multiscale-normalize-response", [], 1).Continue?
    ensures Apply(ext, st, MultiscaleNormalizeResponse, "multiscale-normalize-response", [], 1).next == 3
  {
    assert ValuesRead(MultiscaleNormalizeResponse, false) == 0;
    assert Effect(ext, st, MultiscaleNormalizeResponse, []).Ok?;
  }

  /**
   * `wsclean -multiscale-normalize-response`: the scan stops at 3 with argc
   * 2, the check as written passes, and the corrected main throws instead.
   */
  lemma NormalizeResponseAtEnd(ext: Externals, defaults: Settings)
    ensures var argv := ["wsclean", "-multiscale-normalize-response"];
            && ScanFrom(ext, Initial(defaults), argv, 1).Scanned?
            && ScanFrom(ext, Initial(defaults), argv, 1).stop == 3
            && !InputCheckAsWritten(3, |argv|)
            && MainOutcomeAsWritten(ext, defaults, argv) == None
            && MainOutcome(ext, defaults, argv) == Thrown(NoInputMeasurementSets)
  {
    NormalizeResponseLastStep(ext, Initial(defaults));
  }
}

/**
 * wsclean's main function as it runs: a WSClean object whose settings the
 * option branches update in place, a while loop over argi, a loop that
 * pushes the input files onto the settings and a loop that builds the
 * command line.
 */
module Program {
  import opened Conversions
  import opened Settings
  import opened OptionTable
  import opened State
  import opened Scanner

  /** The object main creates: the settings it fills in and the command line it hands over. */
  class WSClean {
    var settings: Settings
    var commandLine: string

    constructor (defaults: Settings)
      ensures settings == defaults && commandLine == ""
    {
      settings := defaults;
      commandLine := "";
    }

    method SetCommandLine(line: string)
      modifies this
      ensures commandLine == line && settings == old(settings)
    {
      commandLine := line;
    }
  }

  /**
   * The scanning loop: each pass handles the option at argv[argi], whose
   * branch updates the settings in place and main's local flags, and moves
   * argi past the option and its values. It ends at the first token that is
   * not a flag, at -version, or at an exception; main's local flags are
   * returned in the final state.
   */
  method ScanOptions(ext: Externals, wsclean: WSClean, argv: seq<string>) returns (result: ScanResult)
    modifies wsclean
    ensures result == ScanFrom(ext, Initial(old(wsclean.settings)), argv, 1)
    ensures result.Scanned? ==> wsclean.settings == result.state.settings
    ensures wsclean.commandLine == old(wsclean.commandLine)
  {
    ghost var defaults := wsclean.settings;
    var argi := 1;
    var mfsWeighting, noMFSWeighting, predictionMode := false, false, false;
    while argi < |argv| && IsFlag(argv[argi])
      invariant 1 <= argi <= |argv| + 1
      invariant ScanFrom(ext, ScanState(wsclean.settings, mfsWeighting, noMFSWeighting, predictionMode), argv, argi)
                == ScanFrom(ext, Initial(defaults), argv, 1)
      invariant wsclean.commandLine == old(wsclean.commandLine)
      decreases |argv| + 1 - argi
    {
      match Step(ext, ScanState(wsclean.settings, mfsWeighting, noMFSWeighting, predictionMode), argv, argi)
      case ShowVersion =>
        return VersionShown;
      case Throw(failure) =>
        return Aborted(failure);
      case Continue(next, nextArgi) =>
        wsclean.settings := next.settings;
        mfsWeighting, noMFSWeighting, predictionMode := next.mfsWeighting, next.noMFSWeighting, next.predictionMode;
        argi := nextArgi;
    }
    result := Scanned(ScanState(wsclean.settings, mfsWeighting, noMFSWeighting, predictionMode), argi);
  }

  /** The loop that appends every token from argv[argi] on to the input list, in order. */
  method AddInputs(wsclean: WSClean, argv: seq<string>, argi: nat)
    requires argi <= |argv|
    modifies wsclean
    ensures wsclean.settings
            == old(wsclean.settings).(run := old(wsclean.settings).run.(
                 filenames := old(wsclean.settings).run.filenames + argv[argi..]))
    ensures wsclean.commandLine == old(wsclean.commandLine)
  {
    ghost var start := wsclean.settings;
    for i := argi to |argv|
      invariant wsclean.settings == start.(run := start.run.(filenames := start.run.filenames + argv[argi..i]))
      invariant wsclean.commandLine == old(wsclean.commandLine)
    {
      assert argv[argi..i + 1] == argv[argi..i] + [argv[i]];
      var run := wsclean.settings.run;
      wsclean.settings := wsclean.settings.(run := run.(filenames := run.filenames + [argv[i]]));
    }
    assert argv[argi..|argv|] == argv[argi..];
  }

  /** The loop that writes "wsclean" and then a space and each argument. */
  method EchoArguments(argv: seq<string>) returns (line: string)
    requires |argv| >= 1
    ensures line == CommandLine(argv)
  {
    line := "wsclean";
    for i := 1 to |argv|
      invariant line == "wsclean" + Echo(argv[1..i])
    {
      assert argv[1..i + 1][..i - 1] == argv[1..i];
      line := line + " " + argv[i];
    }
    assert argv[1..|argv|] == argv[1..];
  }

  /** main, from its argument vector to its outcome; the engine's own work is not modelled. */
  method WSCleanMain(ext: Externals, defaults: Settings, argv: seq<string>) returns (r: MainResult)
    ensures r == MainOutcome(ext, defaults, argv)
  {
    if |argv| < 2 {
      return Exit(-1);
    }
    var wsclean := new WSClean(defaults);
    var scan := ScanOptions(ext, wsclean, argv);
    match scan
    case VersionShown =>
      return Exit(0);
    case Aborted(failure) =>
      return Thrown(failure);
    case Scanned(st, argi) =>
      if argi >= |argv| {
        return Thrown(NoInputMeasurementSets);
      }
      var s := wsclean.settings;
      var mfs := DerivedMfsWeighting(ChannelsJoined in s.enabled, st.noMFSWeighting, st.mfsWeighting);
      wsclean.settings := s.(weighting := s.weighting.(mfsWeighting := mfs));
      AddInputs(wsclean, argv, argi);
      var line := EchoArguments(argv);
      wsclean.SetCommandLine(line);
      return Run(if st.predictionMode then RunPredict else RunClean, wsclean.settings, wsclean.commandLine);
  }
}

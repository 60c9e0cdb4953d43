/**
 * What main promises about a whole argument vector: how option tokens are
 * spelled, when it returns, when it throws for want of input files, and
 * what the engine receives when it runs.
 */
module MainProperties {
  import opened Wrappers
  import opened Conversions
  import opened Settings
  import opened OptionTable
  import opened State
  import opened Scanner
  import opened Switches
  import opened LastFlagWins

  /** One dash or two: a long option and its short spelling dispatch identically. */
  lemma DashSpellings(ext: Externals, st: ScanState, argv: seq<string>, argi: nat, name: string)
    requires 1 <= argi < |argv|
    requires name == [] || name[0] != '-'
    ensures Step(ext, st, argv[argi := "-" + name], argi) == Step(ext, st, argv[argi := "--" + name], argi)
  {
    var one, two := argv[argi := "-" + name], argv[argi := "--" + name];
    assert Param(one[argi]) == name;
    assert Param(two[argi]) == name;
    assert one[argi + 1..] == two[argi + 1..];
  }

  /** A flag whose name no test accepts throws "Unknown parameter" with that name. */
  lemma UnknownName(ext: Externals, st: ScanState, argv: seq<string>, argi: nat)
    requires 1 <= argi < |argv| && IsFlag(argv[argi])
    requires !IsOptionName(Param(argv[argi]))
    ensures Step(ext, st, argv, argi) == Throw(UnknownParameter(Param(argv[argi])))
    ensures Message(Step(ext, st, argv, argi).failure) == "Unknown parameter: " + Param(argv[argi])
  {
    StepUnknownParameter(ext, st, argv, argi);
  }

  /** A bare "-" or "--" leaves an empty name, which no test accepts. */
  lemma BareDashes(ext: Externals, st: ScanState, argv: seq<string>, argi: nat)
    requires 1 <= argi < |argv| && (argv[argi] == "-" || argv[argi] == "--")
    ensures Step(ext, st, argv, argi) == Throw(UnknownParameter(""))
    ensures Message(Step(ext, st, argv, argi).failure) == "Unknown parameter: "
  {
    assert Param(argv[argi]) == "";
    assert Lookup("") == None;
  }

  /** -version ends the scan at once. */
  lemma VersionShows(ext: Externals, st: ScanState, argv: seq<string>, argi: nat)
    requires 1 <= argi < |argv| && IsFlag(argv[argi]) && Param(argv[argi]) == "version"
    ensures Step(ext, st, argv, argi) == ShowVersion
  {
    assert Lookup("version") == Some(Version);
  }

  /**
   * main leaves before the engine with -1 exactly when it is given no
   * argument, and with 0 exactly when -version is reached. After the engine
   * runs it returns 0 as well (line 839); that outcome is `Run`, not `Exit`.
   */
  lemma MainExitCodes(ext: Externals, defaults: Settings, argv: seq<string>)
    ensures MainOutcome(ext, defaults, argv) == Exit(-1) <==> |argv| < 2
    ensures MainOutcome(ext, defaults, argv) == Exit(0)
            <==> |argv| >= 2 && ScanFrom(ext, Initial(defaults), argv, 1).VersionShown?
    ensures MainOutcome(ext, defaults, argv).Exit? ==> MainOutcome(ext, defaults, argv).code in {0, -1}
  {
  }

  /** With -version first, main returns 0 whatever follows: no further scan, no input check. */
  lemma MainVersionFirst(ext: Externals, defaults: Settings, argv: seq<string>)
    requires |argv| >= 2 && (argv[1] == "-version" || argv[1] == "--version")
    ensures MainOutcome(ext, defaults, argv) == Exit(0)
  {
    VersionShows(ext, Initial(defaults), argv, 1);
  }

  /**
   * main throws "No input measurement sets given." exactly when the scan
   * consumes every token; it then derives nothing and runs nothing.
   */
  lemma MainNoInputs(ext: Externals, defaults: Settings, argv: seq<string>)
    requires |argv| >= 2
    ensures MainOutcome(ext, defaults, argv) == Thrown(NoInputMeasurementSets)
            <==> ScanFrom(ext, Initial(defaults), argv, 1).Scanned?
                 && ScanFrom(ext, Initial(defaults), argv, 1).stop >= |argv|
    ensures MainOutcome(ext, defaults, argv).Thrown? && MainOutcome(ext, defaults, argv).failure.NoInputMeasurementSets?
            ==> Message(MainOutcome(ext, defaults, argv).failure) == "No input measurement sets given."
  {
  }

  /**
   * When the engine runs, the scan stopped at a token that is not a flag,
   * and the input list is the default one followed by every token from
   * there on, in order.
   */
  lemma MainRunInputs(ext: Externals, defaults: Settings, argv: seq<string>)
    requires MainOutcome(ext, defaults, argv).Run?
    ensures var sc := ScanFrom(ext, Initial(defaults), argv, 1);
            && sc.Scanned? && 1 <= sc.stop < |argv| && !IsFlag(argv[sc.stop])
            && MainOutcome(ext, defaults, argv).settings.run.filenames
               == defaults.run.filenames + argv[sc.stop..]
  {
    ScanKeepsInputs(ext, Initial(defaults), argv, 1);
  }

  /** When the engine runs, every boolean setting is the replay of the options scanned. */
  lemma MainRunSwitches(ext: Externals, defaults: Settings, argv: seq<string>)
    requires MainOutcome(ext, defaults, argv).Run?
    ensures MainOutcome(ext, defaults, argv).settings.enabled
            == Replay(defaults.enabled, Trace(ext, Initial(defaults), argv, 1))
  {
    ScanReplays(ext, Initial(defaults), argv, 1);
  }

  /**
   * The derived mfsWeighting depends only on which options occur, not on
   * where: joined-channel cleaning implies it unless -nomfsweighting was
   * given, and -mfsweighting forces it.
   */
  lemma MainRunMfsWeighting(ext: Externals, defaults: Settings, argv: seq<string>)
    requires MainOutcome(ext, defaults, argv).Run?
    ensures var trace, s := Trace(ext, Initial(defaults), argv, 1), MainOutcome(ext, defaults, argv).settings;
            s.weighting.mfsWeighting
            == ((ChannelsJoined in s.enabled && NoMFSWeighting !in trace) || MFSWeighting in trace)
  {
    ScanLocals(ext, Initial(defaults), argv, 1);
  }

  /** The engine runs prediction exactly when -predict was scanned, and gets the echoed command line. */
  lemma MainRunEntry(ext: Externals, defaults: Settings, argv: seq<string>)
    requires MainOutcome(ext, defaults, argv).Run?
    ensures MainOutcome(ext, defaults, argv).entry == RunPredict
            <==> Predict in Trace(ext, Initial(defaults), argv, 1)
    ensures MainOutcome(ext, defaults, argv).commandLine == CommandLine(argv)
  {
    ScanLocals(ext, Initial(defaults), argv, 1);
  }

  /** After -reorder or -no-reorder, the engine gets exactly one of the two force flags. */
  lemma MainReorderExclusive(ext: Externals, defaults: Settings, argv: seq<string>)
    requires MainOutcome(ext, defaults, argv).Run?
    requires Reorder in Trace(ext, Initial(defaults), argv, 1) || NoReorder in Trace(ext, Initial(defaults), argv, 1)
    ensures (ReorderForced in MainOutcome(ext, defaults, argv).settings.enabled)
            != (NoReorderForced in MainOutcome(ext, defaults, argv).settings.enabled)
  {
    MainRunSwitches(ext, defaults, argv);
    ReorderExclusive(defaults.enabled, Trace(ext, Initial(defaults), argv, 1));
  }

  /** Echoing two lists of arguments one after the other echoes their concatenation. */
  lemma {:induction false} EchoAppend(a: seq<string>, b: seq<string>)
    ensures Echo(a + b) == Echo(a) + Echo(b)
    decreases |b|
  {
    if b == [] {
      assert a + b == a;
    } else {
      var init, last := b[..|b| - 1], b[|b| - 1];
      assert (a + b)[..|a + b| - 1] == a + init;
      assert (a + b)[|a + b| - 1] == last;
      EchoAppend(a, init);
    }
  }

  /** The command line is "wsclean" and then each argument after a single space, in order. */
  lemma CommandLineWords(argv: seq<string>)
    requires |argv| >= 2
    ensures CommandLine(argv) == "wsclean" + " " + argv[1] + Echo(argv[2..])
  {
    assert argv[1..] == [argv[1]] + argv[2..];
    EchoAppend([argv[1]], argv[2..]);
    assert [argv[1]][..0] == [];
  }
}

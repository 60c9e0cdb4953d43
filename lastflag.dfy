/**
 * The scan of the argument vector seen as the sequence of options it applies:
 * the booleans it leaves are the replay of that sequence, main's local flags
 * record whether their options occur in it, and the input list is untouched.
 */
module LastFlagWins {
  import opened Wrappers
  import opened Conversions
  import opened Settings
  import opened OptionTable
  import opened State
  import opened Scanner
  import opened Switches

  /** The options the scan applies, in order, until it stops or fails. */
  function Trace(ext: Externals, st: ScanState, argv: seq<string>, argi: nat): seq<Flag>
    requires 1 <= argi <= |argv| + 1
    decreases |argv| + 1 - argi
  {
    if argi < |argv| && IsFlag(argv[argi]) then
      match Lookup(Param(argv[argi]))
      case None => []
      case Some(f) =>
        match Step(ext, st, argv, argi)
        case Continue(next, nextArgi) => [f] + Trace(ext, next, argv, nextArgi)
        case _ => []
    else []
  }

  /** Every option's effect switches booleans as Switched says. */
  lemma EffectSwitches(ext: Externals, st: ScanState, f: Flag, values: seq<string>)
    requires Effect(ext, st, f, values).Ok?
    ensures Effect(ext, st, f, values).value.settings.enabled == Switched(st.settings.enabled, f)
  {
    if f.GridModeFlag? || f.Weight? || f.VisibilityWeightingModeFlag? {
      EnumKeepsSwitches(ext, st, f, values);
      EnumWritesNoSwitch(f);
      SwitchedUnwritten(st.settings.enabled, f);
    }
  }

  /** The three options with an enumerated value write no boolean. */
  lemma EnumWritesNoSwitch(f: Flag)
    requires f.GridModeFlag? || f.Weight? || f.VisibilityWeightingModeFlag?
    ensures forall t :: Writes(t, f).None?
  {
  }

  /** The effect of an option with an enumerated value leaves the booleans alone. */
  lemma EnumKeepsSwitches(ext: Externals, st: ScanState, f: Flag, values: seq<string>)
    requires f.GridModeFlag? || f.Weight? || f.VisibilityWeightingModeFlag?
    requires Effect(ext, st, f, values).Ok?
    ensures Effect(ext, st, f, values).value.settings.enabled == st.settings.enabled
  {
  }

  /** Every option's effect sets main's local flags only when it is their option. */
  lemma EffectLocals(ext: Externals, st: ScanState, f: Flag, values: seq<string>)
    requires Effect(ext, st, f, values).Ok?
    ensures Effect(ext, st, f, values).value.mfsWeighting == (st.mfsWeighting || f.MFSWeighting?)
    ensures Effect(ext, st, f, values).value.noMFSWeighting == (st.noMFSWeighting || f.NoMFSWeighting?)
    ensures Effect(ext, st, f, values).value.predictionMode == (st.predictionMode || f.Predict?)
  {
  }

  /** No option's effect touches the list of input measurement sets. */
  lemma EffectKeepsInputs(ext: Externals, st: ScanState, f: Flag, values: seq<string>)
    requires Effect(ext, st, f, values).Ok?
    ensures Effect(ext, st, f, values).value.settings.run.filenames == st.settings.run.filenames
  {
  }

  /** A step that goes on is the effect of its option on exactly the values the option reads. */
  lemma StepEffect(ext: Externals, st: ScanState, argv: seq<string>, argi: nat)
    requires 1 <= argi < |argv| && IsFlag(argv[argi])
    requires Step(ext, st, argv, argi).Continue?
    ensures Lookup(Param(argv[argi])).Some?
    ensures var f := Lookup(Param(argv[argi])).value;
            var n := ValuesRead(f, BriggsFollows(argv[argi + 1..]));
            && argi + n < |argv|
            && Effect(ext, st, f, argv[argi + 1..][..n]) == Ok(Step(ext, st, argv, argi).state)
  {
  }

  /** A step that goes on switches booleans as its option says. */
  lemma StepSwitches(ext: Externals, st: ScanState, argv: seq<string>, argi: nat)
    requires 1 <= argi < |argv| && IsFlag(argv[argi])
    requires Step(ext, st, argv, argi).Continue?
    ensures Lookup(Param(argv[argi])).Some?
    ensures Step(ext, st, argv, argi).state.settings.enabled
            == Switched(st.settings.enabled, Lookup(Param(argv[argi])).value)
  {
    StepEffect(ext, st, argv, argi);
    var f := Lookup(Param(argv[argi])).value;
    EffectSwitches(ext, st, f, argv[argi + 1..][..ValuesRead(f, BriggsFollows(argv[argi + 1..]))]);
  }

  /** A step that goes on sets main's local flags only for their own options. */
  lemma StepLocals(ext: Externals, st: ScanState, argv: seq<string>, argi: nat)
    requires 1 <= argi < |argv| && IsFlag(argv[argi])
    requires Step(ext, st, argv, argi).Continue?
    ensures Lookup(Param(argv[argi])).Some?
    ensures var out, f := Step(ext, st, argv, argi).state, Lookup(Param(argv[argi])).value;
            && out.mfsWeighting == (st.mfsWeighting || f.MFSWeighting?)
            && out.noMFSWeighting == (st.noMFSWeighting || f.NoMFSWeighting?)
            && out.predictionMode == (st.predictionMode || f.Predict?)
  {
    StepEffect(ext, st, argv, argi);
    var f := Lookup(Param(argv[argi])).value;
    EffectLocals(ext, st, f, argv[argi + 1..][..ValuesRead(f, BriggsFollows(argv[argi + 1..]))]);
  }

  /** A step that goes on leaves the input list alone. */
  lemma StepKeepsInputs(ext: Externals, st: ScanState, argv: seq<string>, argi: nat)
    requires 1 <= argi < |argv| && IsFlag(argv[argi])
    requires Step(ext, st, argv, argi).Continue?
    ensures Step(ext, st, argv, argi).state.settings.run.filenames == st.settings.run.filenames
  {
    StepEffect(ext, st, argv, argi);
    var f := Lookup(Param(argv[argi])).value;
    EffectKeepsInputs(ext, st, f, argv[argi + 1..][..ValuesRead(f, BriggsFollows(argv[argi + 1..]))]);
  }

  /** A scan that reaches its end has switched booleans as the replay of the options it applied. */
  lemma {:induction false} ScanReplays(ext: Externals, st: ScanState, argv: seq<string>, argi: nat)
    requires 1 <= argi <= |argv| + 1
    requires ScanFrom(ext, st, argv, argi).Scanned?
    ensures ScanFrom(ext, st, argv, argi).state.settings.enabled
            == Replay(st.settings.enabled, Trace(ext, st, argv, argi))
    decreases |argv| + 1 - argi
  {
    if argi < |argv| && IsFlag(argv[argi]) {
      var r := Step(ext, st, argv, argi);
      StepSwitches(ext, st, argv, argi);
      ScanReplays(ext, r.state, argv, r.next);
    }
  }

  /** A scan that reaches its end has set main's local flags exactly when their options occur. */
  lemma {:induction false} ScanLocals(ext: Externals, st: ScanState, argv: seq<string>, argi: nat)
    requires 1 <= argi <= |argv| + 1
    requires ScanFrom(ext, st, argv, argi).Scanned?
    ensures var out, trace := ScanFrom(ext, st, argv, argi).state, Trace(ext, st, argv, argi);
            && out.mfsWeighting == (st.mfsWeighting || MFSWeighting in trace)
            && out.noMFSWeighting == (st.noMFSWeighting || NoMFSWeighting in trace)
            && out.predictionMode == (st.predictionMode || Predict in trace)
    decreases |argv| + 1 - argi
  {
    if argi < |argv| && IsFlag(argv[argi]) {
      var r := Step(ext, st, argv, argi);
      StepLocals(ext, st, argv, argi);
      ScanLocals(ext, r.state, argv, r.next);
    }
  }

  /** A scan that reaches its end leaves the input list as it found it. */
  lemma {:induction false} ScanKeepsInputs(ext: Externals, st: ScanState, argv: seq<string>, argi: nat)
    requires 1 <= argi <= |argv| + 1
    requires ScanFrom(ext, st, argv, argi).Scanned?
    ensures ScanFrom(ext, st, argv, argi).state.settings.run.filenames == st.settings.run.filenames
    decreases |argv| + 1 - argi
  {
    if argi < |argv| && IsFlag(argv[argi]) {
      var r := Step(ext, st, argv, argi);
      StepKeepsInputs(ext, st, argv, argi);
      ScanKeepsInputs(ext, r.state, argv, r.next);
    }
  }
}

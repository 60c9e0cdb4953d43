# wsclean command-line scanner

A model of how wsclean's `main` turns its argument vector into a
`WSCleanSettings` record and a call into the imaging engine
(wsclean/wscleanmain.cpp:294-840). The steps are:

- An index `argi` walks the tokens while each one starts with `-`.
- One or two leading dashes are stripped from the token.
- The remaining name is compared with the option names, in the order the source tests them.
- The branch that matches writes its settings.
- `argi` moves past the option and the values the option consumes.
- After the scan, main tests whether the scan stopped exactly at argc and then throws for want of input files. The model's `MainOutcome` throws whenever the scan stopped at or past argc (see Findings).
- It then derives `mfsWeighting`, appends the remaining tokens to `filenames`, echoes the command line, and calls `RunPredict` or `RunClean`.

Modules, file by file:

- `wscleanmain.dfy`, module `Program`: the imperative main.
  - A `WSClean` class holds the settings and the command line.
  - `ScanOptions` is the scanning `while` loop.
  - `AddInputs` is the `for` loop that pushes the input files.
  - `EchoArguments` is the `for` loop that builds the command line.
  - `WSCleanMain` ties them together. Each method is proved equal to the functional specification below.
- `scanner.dfy`, module `Scanner`: the specification as functions.
  - `Effect` is one branch's effect, and `Apply` and `Step` are one pass of the loop.
  - `ScanFrom` is the whole loop.
  - `MainOutcome` is main from argv to its outcome.
- `options.dfy`, module `OptionTable`:
  - the option names as a table of tests in source order, and their lookup
  - the arity of each option
  - the case folding and the alias tables of `-gridmode` and `-visibility-weighting-mode`
- `state.dfy` and `settings.dfy`: the settings record, what the loop carries, and which options write which boolean setting.
- `switches.dfy`, `lastflag.dfy`: "last flag wins" for the boolean settings, and what the scan does to `filenames` and to main's local flags.
- `effects.dfy`: what the individual options consume and write.
- `mainprops.dfy`: properties of main as a whole.
- `findings.dfy`: the input check as the source writes it, and the input on which it differs from the intended check.

Numeric and angle conversions are passed in as an `Externals` value: `atoi`, `atof`, `Angle::Parse`, `Polarization::ParseList` and `NumberList::ParseDoubleList`. Every result holds for every choice of them. The defaults of `WSCleanSettings` are a parameter too.

## Model

Rows whose third column begins with "definition:" name members that carry no contract of their own beyond `Step`'s and `ScanFrom`'s bounds; the lemmas named in the row state their properties.

| member | source | states |
|---|---|---|
| Scanner.MainOutcome | wsclean/wscleanmain.cpp:296-840 | definition: main as a function of argv, with the corrected input check; its properties are MainExitCodes, MainNoInputs, MainRunInputs, MainRunSwitches, MainRunMfsWeighting and MainRunEntry, and Program.WSCleanMain is proved equal to it |
| Program.WSCleanMain | wsclean/wscleanmain.cpp:296-840 | the imperative main returns exactly what `MainOutcome` says for every argument vector |
| Program.ScanOptions | wsclean/wscleanmain.cpp:306-811 | the while loop ends as `ScanFrom` from argi 1 on the default settings; when the scan completes, the object holds the scanned settings; the command line is unchanged |
| Program.AddInputs | wsclean/wscleanmain.cpp:824-825 | the for loop appends argv[argi..] to the input list, in order, and changes no other setting and not the command line |
| Program.EchoArguments | wsclean/wscleanmain.cpp:827-830 | the ostringstream loop builds exactly `CommandLine(argv)` |
| Program.WSClean.constructor | wsclean/wscleanmain.cpp:306 | the new object holds the default settings and an empty command line |
| Program.WSClean.SetCommandLine | wsclean/wscleanmain.cpp:831 | stores the line and leaves the settings unchanged |
| OptionTable.IsFlag | wsclean/wscleanmain.cpp:310 | definition: a token starts with '-'; ScanFrom stops only at a token where it is false |
| OptionTable.Param | wsclean/wscleanmain.cpp:312 | the name is the token without one leading dash, or without two exactly when the second character is a dash |
| OptionTable.Find | wsclean/wscleanmain.cpp:313-807 | definition: the left-to-right search of the tree of name tests; FindIsFirstMatch ties it to the first match in source order |
| OptionTable.Lookup | wsclean/wscleanmain.cpp:313-807 | definition: the search over the 96 name tests in source order; LookupIsFirstMatch and FirstMatchSpec state what it returns |
| OptionTable.Arity | wsclean/wscleanmain.cpp:313-810 | definition: the tokens each branch consumes (++argi or argi += k, plus line 810's ++argi); StepAdvances and the OptionEffects lemmas state it per option |
| OptionTable.ValuesRead | wsclean/wscleanmain.cpp:591-595 | the tokens a branch reads never exceed the tokens it consumes, and fall short exactly for -multiscale-normalize-response |
| OptionTable.FirstMatchSpec | wsclean/wscleanmain.cpp:313-807 | resolving a name gives nothing exactly when no test has that name, and otherwise the option of the first test with that name |
| OptionTable.FindIsFirstMatch | wsclean/wscleanmain.cpp:313-807 | searching the tree of tests is the same as taking the first match in source order |
| OptionTable.LookupIsFirstMatch | wsclean/wscleanmain.cpp:313-807 | the tree lookup gives the first match over the whole option table, in source order |
| OptionTable.LowerChar | wsclean/wscleanmain.cpp:495 | definition: `boost::to_lower` on one character in the C locale; ToLower states what it does to a whole string |
| OptionTable.ToLower | wsclean/wscleanmain.cpp:495 | lower-casing in the C locale keeps the length, leaves no upper-case letter, moves each of 'A'..'Z' up by 32 and keeps every other character |
| OptionTable.ToLowerIdempotent | wsclean/wscleanmain.cpp:495 | lower-casing twice is lower-casing once |
| OptionTable.ParseGridMode | wsclean/wscleanmain.cpp:493-503 | definition: the lower-casing if-chain of -gridmode; ParseGridModeSpec states what it accepts and selects |
| OptionTable.ParseGridModeSpec | wsclean/wscleanmain.cpp:493-503 | a gridding mode is accepted exactly when its lower-cased form is an alias, and then selects that alias's kernel |
| OptionTable.ParseVisibilityWeightingMode | wsclean/wscleanmain.cpp:790-800 | definition: the lower-casing if-chain of -visibility-weighting-mode; ParseVisibilityWeightingModeSpec states what it accepts and selects |
| OptionTable.ParseVisibilityWeightingModeSpec | wsclean/wscleanmain.cpp:790-800 | a visibility weighting mode is accepted exactly when its lower-cased form is normal, squared or unit, and then selects that mode |
| Scanner.Assign | wsclean/wscleanmain.cpp:330-805 | definition: the branches without an enumerated value, as field assignments, boolean switches and main's local flags; Effect, EffectSwitches, EffectLocals, EffectKeepsInputs and the OptionEffects lemmas state what they write |
| Scanner.AssignGeometry | wsclean/wscleanmain.cpp:356-376 | definition: -size, -trim and -scale; SizeAndTrim and ScaleSquarePixels |
| Scanner.AssignGridding | wsclean/wscleanmain.cpp:377-783 | definition: -nwlayers, -nwlayers-for-size, -gkernelsize, -oversampling and -maxw; NWLayersForSizeValues |
| Scanner.AssignWeighting | wsclean/wscleanmain.cpp:547-675 | definition: the taper, rank-filter and super-weight options |
| Scanner.AssignSelection | wsclean/wscleanmain.cpp:408-777 | definition: -datacolumn, -pol, -interval, -intervalsout, -channelrange, -channelsout, -field and the uv-range options; IntervalAndChannelRange |
| Scanner.AssignDeconvolution | wsclean/wscleanmain.cpp:388-650 | definition: the deconvolution options, with -cleanborder scaled by 0.01 |
| Scanner.AssignRestoration | wsclean/wscleanmain.cpp:676-693 | definition: -beamsize and -beamshape; BeamSizeCircular and BeamShapeValues |
| Scanner.AssignRun | wsclean/wscleanmain.cpp:330-757 | definition: -tempdir, -predict-channels, -name, -j, -mem (divided by 100) and -absmem |
| Scanner.Effect | wsclean/wscleanmain.cpp:313-805 | an option's branch fails exactly for a bad value of -gridmode, -weight or -visibility-weighting-mode, with that option's exception; every other branch succeeds |
| Scanner.Apply | wsclean/wscleanmain.cpp:313-810 | exactly -version ends the scan; a step that goes on moves argi by 1 plus the option's arity, at most past all the tokens after it plus one; it never throws "Unknown parameter" |
| Scanner.Message | wsclean/wscleanmain.cpp:503-814 | definition: the text of each exception, as thrown at lines 503, 669, 800, 807 and 814 (MissingArgument has no counterpart in WSClean); UnknownName, BareDashes and MainNoInputs state the texts they produce |
| Scanner.BriggsFollows | wsclean/wscleanmain.cpp:664 | definition: the token after -weight is "briggs", which makes -weight consume one more token; WeightBriggs and StepAdvances state the arity it selects |
| Scanner.WeightNames | wsclean/wscleanmain.cpp:660-664 | definition: the three values -weight accepts, compared as given; WeightValues states that exactly these are accepted |
| Scanner.Step | wsclean/wscleanmain.cpp:312-807 | a name that resolves to no option throws "Unknown parameter" with the name itself; a step that goes on stays within argc + 1 |
| Scanner.StepMissingArgument | wsclean/wscleanmain.cpp:313-810 | a known option throws MissingArgument exactly when it is not -version and reads past the end of argv; -multiscale-normalize-response never does |
| Scanner.StepUnknownParameter | wsclean/wscleanmain.cpp:806-807 | a flag throws "Unknown parameter" exactly when no option has its name |
| Scanner.ScanFrom | wsclean/wscleanmain.cpp:310-811 | the scan stops at or after where it started, within argc + 1, and only at a token that does not start with '-' |
| OptionEffects.StepAdvances | wsclean/wscleanmain.cpp:810 | a step that goes on moves argi by exactly 1 plus the option's arity |
| OptionEffects.SizeAndTrim | wsclean/wscleanmain.cpp:356-370 | -size and -trim consume two tokens and write the width from the first and the height from the second; the new state is the old one with only those fields changed |
| OptionEffects.NWLayersForSizeValues | wsclean/wscleanmain.cpp:382-387 | -nwlayers-for-size consumes two tokens, the width and the height for the w-layer count; the new state is the old one with only those fields changed |
| OptionEffects.IntervalAndChannelRange | wsclean/wscleanmain.cpp:513-529 | -interval and -channelrange consume two tokens, the start and the end; the new state is the old one with only those fields changed |
| OptionEffects.ScaleSquarePixels | wsclean/wscleanmain.cpp:371-376 | -scale consumes one token and sets both pixel scales to the same angle, in degrees; the new state is the old one with only those fields changed |
| OptionEffects.BeamSizeCircular | wsclean/wscleanmain.cpp:676-683 | -beamsize sets the major and minor axes to the same angle, in arcseconds, and the position angle to 0; the new state is the old one with only those fields changed |
| OptionEffects.BeamShapeValues | wsclean/wscleanmain.cpp:684-693 | -beamshape consumes three tokens: two axes in arcseconds and a position angle in degrees; the new state is the old one with only those fields changed |
| OptionEffects.WeightBriggs | wsclean/wscleanmain.cpp:656-670 | -weight consumes one token, or two when it is "briggs", and Briggs weighting takes its robustness from the second; the new state is the old one with only those fields changed |
| OptionEffects.NormalizeResponseSkipsToken | wsclean/wscleanmain.cpp:591-595 | -multiscale-normalize-response consumes one token whose value does not matter |
| OptionEffects.GridModeValues | wsclean/wscleanmain.cpp:491-504 | -gridmode succeeds exactly on an alias in any letter case and selects its kernel, changing nothing else; otherwise it throws the invalid-gridding-mode exception |
| OptionEffects.GridModeIgnoresCase | wsclean/wscleanmain.cpp:495 | the gridding mode does not depend on letter case |
| OptionEffects.VisibilityWeightingValues | wsclean/wscleanmain.cpp:788-801 | -visibility-weighting-mode succeeds exactly on normal, squared or unit in any letter case and changes only the mode; otherwise it throws with the lower-cased value |
| OptionEffects.WeightValues | wsclean/wscleanmain.cpp:656-670 | -weight accepts exactly natural, uniform and briggs, as given, with no case folding, and natural or uniform changes only the weight mode; anything else throws "Unknown weighting mode specified" |
| OptionEffects.EnumExamples | wsclean/wscleanmain.cpp:491-801 | Kaiser-Bessel, NN and Squared are accepted in mixed case, sinc is refused, and -weight refuses Natural |
| State.Initial | wsclean/wscleanmain.cpp:306-309 | definition: the state before the first option, the default settings with the three local flags false; ScanLocals, MainRunSwitches and MainRunEntry start from it |
| State.Writes | wsclean/wscleanmain.cpp:313-805 | definition: for each boolean setting, the options that set it and those that clear it, as in their branches; SwitchedWrites, LastWriterWins and the paired-switch lemmas use it |
| State.Switched | wsclean/wscleanmain.cpp:313-805 | definition: the booleans after one option; SwitchedWrites and SwitchedUnwritten state it |
| State.AllSwitchesComplete | wsclean/wscleanmain.cpp:313-805 | every boolean setting the scanner writes is in the switch universe |
| Switches.SwitchedWrites | wsclean/wscleanmain.cpp:313-805 | after one option, a boolean holds what that option writes, or what it held before |
| Switches.SwitchedUnwritten | wsclean/wscleanmain.cpp:313-805 | an option that writes no boolean leaves all of them unchanged |
| Switches.LastWriteSpec | wsclean/wscleanmain.cpp:310-811 | the last write in a trace is absent exactly when nothing writes, and otherwise comes from an option after which none writes |
| Switches.ReplaySnoc | wsclean/wscleanmain.cpp:310-811 | replaying one more option applies that option to the result of the shorter replay |
| Switches.ReplayLastWrite | wsclean/wscleanmain.cpp:310-811 | after a sequence of options, each boolean holds its last write, or its initial value if nothing writes it |
| Switches.LastWriterWins | wsclean/wscleanmain.cpp:310-811 | the option that writes a boolean last decides it, whatever came before |
| Switches.UnwrittenKept | wsclean/wscleanmain.cpp:310-811 | a boolean that no option of the trace writes keeps its initial value |
| Switches.ReorderLastWrites | wsclean/wscleanmain.cpp:725-734 | forceReorder and forceNoReorder are always last written by the same option, with opposite values |
| Switches.ReorderExclusive | wsclean/wscleanmain.cpp:725-734 | after -reorder or -no-reorder, exactly one of forceReorder and forceNoReorder is set |
| Switches.NegativeLastWins | wsclean/wscleanmain.cpp:430-449 | of -negative, -nonegative and -iuwt the last one decides, and only -negative allows negative components |
| Switches.FitBeamLastWins | wsclean/wscleanmain.cpp:694-706 | of -fitbeam, -nofitbeam and -theoreticbeam the last one decides, and only -fitbeam leaves fittedBeam set |
| Switches.CircularBeamLastWins | wsclean/wscleanmain.cpp:707-714 | of -circularbeam and -ellipticalbeam the last one decides |
| Switches.SmallInversionLastWins | wsclean/wscleanmain.cpp:505-512 | of -smallinversion and -nosmallinversion the last one decides |
| LastFlagWins.Trace | wsclean/wscleanmain.cpp:310-811 | definition: the options the loop applies, in order, until it stops or fails; ScanReplays, ScanLocals, MainRunSwitches, MainRunMfsWeighting, MainRunEntry and MainReorderExclusive state what the scan does in its terms |
| LastFlagWins.EffectSwitches | wsclean/wscleanmain.cpp:313-805 | every branch's effect on the booleans is exactly what the per-switch table says |
| LastFlagWins.EnumWritesNoSwitch | wsclean/wscleanmain.cpp:491-801 | the three options with an enumerated value write no boolean |
| LastFlagWins.EnumKeepsSwitches | wsclean/wscleanmain.cpp:491-801 | their effect leaves the booleans unchanged |
| LastFlagWins.EffectLocals | wsclean/wscleanmain.cpp:343-629 | main's local flags are set only by -predict, -mfsweighting and -nomfsweighting |
| LastFlagWins.EffectKeepsInputs | wsclean/wscleanmain.cpp:313-805 | no branch touches the input list |
| LastFlagWins.StepEffect | wsclean/wscleanmain.cpp:312-811 | a step that goes on applies its option's effect to exactly the values it reads, all within argv |
| LastFlagWins.StepSwitches | wsclean/wscleanmain.cpp:312-811 | a step that goes on switches the booleans as its option says |
| LastFlagWins.StepLocals | wsclean/wscleanmain.cpp:343-629 | a step that goes on sets a local flag only for that flag's own option |
| LastFlagWins.StepKeepsInputs | wsclean/wscleanmain.cpp:312-811 | a step that goes on leaves the input list alone |
| LastFlagWins.ScanReplays | wsclean/wscleanmain.cpp:310-811 | after a complete scan, the booleans are the replay of the options applied |
| LastFlagWins.ScanLocals | wsclean/wscleanmain.cpp:309-629 | after a complete scan, each local flag is set exactly when its option occurred |
| LastFlagWins.ScanKeepsInputs | wsclean/wscleanmain.cpp:310-811 | a complete scan leaves the input list as it found it |
| MainProperties.DashSpellings | wsclean/wscleanmain.cpp:312 | -name and --name give the same step |
| MainProperties.UnknownName | wsclean/wscleanmain.cpp:806-807 | a name that no option has throws "Unknown parameter" with that name, whose message is "Unknown parameter: " followed by the name |
| MainProperties.BareDashes | wsclean/wscleanmain.cpp:312-807 | a bare - or -- throws "Unknown parameter" with the empty name, message "Unknown parameter: " |
| MainProperties.VersionShows | wsclean/wscleanmain.cpp:313-317 | -version ends the scan |
| MainProperties.MainExitCodes | wsclean/wscleanmain.cpp:299-317 | main leaves before the engine with -1 exactly when argc < 2, with 0 exactly when the scan reaches -version, and with no other code; after the engine runs it also returns 0 (line 839), which `Run` stands for |
| MainProperties.MainVersionFirst | wsclean/wscleanmain.cpp:313-317 | with -version first, main returns 0 whatever follows |
| MainProperties.MainNoInputs | wsclean/wscleanmain.cpp:813-814 | main throws "No input measurement sets given." exactly when the scan consumes every token, with that message; it then derives nothing and runs nothing |
| MainProperties.MainRunInputs | wsclean/wscleanmain.cpp:824-825 | when the engine runs, the scan stopped at a token that does not start with '-', and the input list is the default list followed by every token from there, in order |
| MainProperties.MainRunSwitches | wsclean/wscleanmain.cpp:310-811 | when the engine runs, the booleans are the replay of the scanned options |
| MainProperties.MainRunMfsWeighting | wsclean/wscleanmain.cpp:822 | the derived mfsWeighting is (joinedFrequencyCleaning and no -nomfsweighting) or -mfsweighting, wherever these options appeared |
| MainProperties.MainRunEntry | wsclean/wscleanmain.cpp:827-838 | RunPredict runs exactly when -predict was scanned, and the engine gets the echoed command line |
| MainProperties.MainReorderExclusive | wsclean/wscleanmain.cpp:725-734 | after -reorder or -no-reorder, the engine gets exactly one of the two force flags |
| Scanner.Echo | wsclean/wscleanmain.cpp:829-830 | definition: a space and each argument, in order; EchoAppend and CommandLineWords state it |
| Scanner.CommandLine | wsclean/wscleanmain.cpp:827-830 | definition: "wsclean" and the echo of argv[1..]; Program.EchoArguments is proved to build it |
| Scanner.DerivedMfsWeighting | wsclean/wscleanmain.cpp:822 | definition: the derived mfsWeighting; MainRunMfsWeighting states it in terms of the scanned options |
| Scanner.Finish | wsclean/wscleanmain.cpp:822-825 | definition: the settings after the scan, with mfsWeighting derived and the remaining tokens appended; MainRunInputs and MainRunMfsWeighting state it |
| MainProperties.EchoAppend | wsclean/wscleanmain.cpp:829-830 | echoing two argument lists in turn echoes their concatenation |
| MainProperties.CommandLineWords | wsclean/wscleanmain.cpp:827-830 | the command line is "wsclean", a space, the first argument, and then each further argument after a space |
| Findings.InputCheckAsWritten | wsclean/wscleanmain.cpp:813 | definition: the `argi == argc` test as written; MainOutcomeAsWritten uses it, and AsWrittenAgrees and NormalizeResponseAtEnd state where it differs from the corrected check |
| Findings.MainOutcomeAsWritten | wsclean/wscleanmain.cpp:813-825 | definition: main with the `argi == argc` check as written, None where the file loop starts past argv; AsWrittenAgrees and NormalizeResponseAtEnd state how it differs from MainOutcome |
| Findings.OvershootIsNormalizeResponse | wsclean/wscleanmain.cpp:591-595 | the scan ends past argc only when the last token is -multiscale-normalize-response |
| Findings.AsWrittenAgrees | wsclean/wscleanmain.cpp:813-825 | the check as written agrees with the corrected one except on argument vectors ending in -multiscale-normalize-response, where it lets the file loop start past argv |
| Findings.NormalizeResponseLastStep | wsclean/wscleanmain.cpp:591-595 | `wsclean -multiscale-normalize-response` resumes the scan at index 3 |
| Findings.NormalizeResponseApplies | wsclean/wscleanmain.cpp:591-595 | with nothing after it, -multiscale-normalize-response still goes on, two tokens further |
| Findings.NormalizeResponseAtEnd | wsclean/wscleanmain.cpp:813-825 | on `wsclean -multiscale-normalize-response` the scan stops at 3 with argc 2; the check as written passes and the corrected main throws |

## Left out

- Output: `print_header`, `print_help` and all Logger calls (`-quiet`, `-v`, `-verbose`, `-log-time`). These options are recognised and consume no value. Their effect on global logger state is not modelled.
- `settings.Validate()` (line 833): its body is not part of this model. `MainOutcome` does not check ranges.
- `RunPredict`, `RunClean` and the internals of `WSClean`: only which entry point is chosen is modelled.
- Number parsing and numeric conversions are external functions. These are `atoi` and `atof`, `Angle::Parse` with its unit, `Polarization::ParseList`, and `NumberList::ParseDoubleList`. Errors these parsers may throw are not modelled.
- Floating-point arithmetic is left out. The scaling of `-cleanborder` by 0.01 and of `-mem` by 1/100 is exact on `real`.
- Scanner.Effect: the `size_t` cast of the `-size` values is not modelled. The value of `atoi` is stored as an unbounded integer.
- Scanner.Apply: when an option's values run past the end of argv, the source reads `argv[argc]` or beyond, which is undefined. The model returns `MissingArgument` instead. This is a modelling choice, not source behaviour; `Scanner.StepMissingArgument` states exactly when it happens.
- The defaults of `WSCleanSettings` are not part of this model; they are a parameter. A fresh `WeightMode`'s super weight is a parameter too (`initialSuperWeight`).
- The second `joinchannels` test (lines 630-633) is kept in the table in its place but can never be reached; `LookupIsFirstMatch` shows the first test decides.
- The settings record is grouped into sub-records, and its boolean fields are a set of `Switch` values. The non-boolean fields keep their WSClean names. Each `Switch` constructor is renamed, because the option constructors already use the natural names; a comment on each constructor gives the WSClean field it stands for.
- The option tests are a balanced tree instead of a chain of `if`s. `FindIsFirstMatch` proves the tree gives the source's first-match order.
- Program.WSCleanMain: the source tests only `argi == argc` before collecting the input files. The method and `MainOutcome` throw for any stop at or past argc, which is the intended check; the as-written check is `Findings.MainOutcomeAsWritten`.
- Program.ScanOptions: each pass calls the functional `Step`. The object's settings are reassigned as a whole value, not field by field.
- Tokens are strings of characters; a NUL inside a token is not treated as its end.

## Findings

| source | as written | input that shows it | evidently intended | confidence | as-written member | corrected member |
|---|---|---|---|---|---|---|
| wsclean/wscleanmain.cpp:813-825 | `if(argi == argc)` lets through the stop argc + 1 that a final `-multiscale-normalize-response` produces. The file loop `for(i=argi; i != argc; ++i)` then starts past the end of argv. | `wsclean -multiscale-normalize-response` (argc 2, scan stops at 3) | throw "No input measurement sets given." whenever no token is left (`argi >= argc`) | not executed | Findings.NormalizeResponseAtEnd | MainProperties.MainRunInputs |

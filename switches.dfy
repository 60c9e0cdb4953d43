/**
 * The rule WSClean's scan follows for the boolean settings, stated on
 * sequences of options: the last option that writes a boolean decides its
 * value, whatever came before; a boolean no option writes keeps its default.
 */
module Switches {
  import opened Wrappers
  import opened Settings
  import opened OptionTable
  import opened State

  /** After one option a switch holds what the option writes, or what it held before. */
  lemma SwitchedWrites(enabled: set<Switch>, f: Flag, t: Switch)
    ensures t in Switched(enabled, f) <==> (if Writes(t, f).Some? then Writes(t, f).value else t in enabled)
  {
    AllSwitchesComplete(t);
  }

  /** An option that writes no boolean leaves them all as they were. */
  lemma SwitchedUnwritten(enabled: set<Switch>, f: Flag)
    requires forall t :: Writes(t, f).None?
    ensures Switched(enabled, f) == enabled
  {
    forall t | t in enabled
      ensures t in Switched(enabled, f)
    {
      AllSwitchesComplete(t);
    }
  }

  /** The switches after the options of `trace`, one after the other. */
  function Replay(enabled: set<Switch>, trace: seq<Flag>): set<Switch>
    decreases |trace|
  {
    if trace == [] then enabled else Replay(Switched(enabled, trace[0]), trace[1..])
  }

  /** What the last option of `trace` that writes something writes, by `writes`, or None when none does. */
  function LastWriteBy(writes: Flag -> Option<bool>, trace: seq<Flag>): Option<bool>
    decreases |trace|
  {
    if trace == [] then None
    else if writes(trace[|trace| - 1]).Some? then writes(trace[|trace| - 1])
    else LastWriteBy(writes, trace[..|trace| - 1])
  }

  /**
   * LastWriteBy is None exactly when no option in the trace writes, and
   * otherwise the value written by an option after which none writes.
   */
  lemma {:induction false} LastWriteSpec(writes: Flag -> Option<bool>, trace: seq<Flag>)
    ensures LastWriteBy(writes, trace).None? <==> forall i :: 0 <= i < |trace| ==> writes(trace[i]).None?
    ensures LastWriteBy(writes, trace).Some? ==>
      exists i :: 0 <= i < |trace| && writes(trace[i]) == LastWriteBy(writes, trace)
                  && forall j :: i < j < |trace| ==> writes(trace[j]).None?
    decreases |trace|
  {
    if trace != [] {
      var n := |trace| - 1;
      var init := trace[..n];
      if writes(trace[n]).None? {
        LastWriteSpec(writes, init);
        assert forall i :: 0 <= i < n ==> trace[i] == init[i];
        if LastWriteBy(writes, trace).Some? {
          var k :| 0 <= k < |init| && writes(init[k]) == LastWriteBy(writes, init)
                   && forall j :: k < j < |init| ==> writes(init[j]).None?;
          assert writes(trace[k]) == LastWriteBy(writes, trace);
        }
      } else {
        assert writes(trace[n]) == LastWriteBy(writes, trace);
      }
    }
  }

  /** The value the last option of `trace` that writes switch `t` gives it, or None. */
  function LastWrite(t: Switch, trace: seq<Flag>): Option<bool> {
    LastWriteBy(f => Writes(t, f), trace)
  }

  /** Replaying one more option switches the result of the shorter replay. */
  lemma {:induction false} ReplaySnoc(enabled: set<Switch>, trace: seq<Flag>, f: Flag)
    ensures Replay(enabled, trace + [f]) == Switched(Replay(enabled, trace), f)
    decreases |trace|
  {
    if trace == [] {
      assert trace + [f] == [f];
      assert [f][1..] == [];
    } else {
      assert (trace + [f])[0] == trace[0];
      assert (trace + [f])[1..] == trace[1..] + [f];
      ReplaySnoc(Switched(enabled, trace[0]), trace[1..], f);
    }
  }

  /**
   * Last flag wins: after a sequence of options a switch holds what the last
   * option that writes it wrote, and its initial value when none does.
   */
  lemma {:induction false} ReplayLastWrite(enabled: set<Switch>, trace: seq<Flag>, t: Switch)
    ensures t in Replay(enabled, trace)
            <==> (if LastWrite(t, trace).Some? then LastWrite(t, trace).value else t in enabled)
    decreases |trace|
  {
    if trace != [] {
      var n := |trace| - 1;
      var init, last := trace[..n], trace[n];
      assert trace == init + [last];
      ReplaySnoc(enabled, init, last);
      ReplayLastWrite(enabled, init, t);
      SwitchedWrites(Replay(enabled, init), last, t);
    }
  }

  /** Last flag wins: the option that writes a switch last decides it. */
  lemma LastWriterWins(enabled: set<Switch>, trace: seq<Flag>, t: Switch, i: nat)
    requires i < |trace| && Writes(t, trace[i]).Some?
    requires forall j :: i < j < |trace| ==> Writes(t, trace[j]).None?
    ensures t in Replay(enabled, trace) <==> Writes(t, trace[i]).value
  {
    var writes := f => Writes(t, f);
    LastWriteSpec(writes, trace);
    ReplayLastWrite(enabled, trace, t);
    assert writes(trace[i]).Some?;
    var k :| 0 <= k < |trace| && writes(trace[k]) == LastWriteBy(writes, trace)
             && forall j :: k < j < |trace| ==> writes(trace[j]).None?;
    assert !(k < i);
    assert !(i < k);
  }

  /** A switch that no option of the trace writes keeps its initial value. */
  lemma UnwrittenKept(enabled: set<Switch>, trace: seq<Flag>, t: Switch)
    requires forall i :: 0 <= i < |trace| ==> Writes(t, trace[i]).None?
    ensures t in Replay(enabled, trace) <==> t in enabled
  {
    LastWriteSpec(f => Writes(t, f), trace);
    ReplayLastWrite(enabled, trace, t);
  }

  /** The two reorder flags are always last written by the same option, with opposite values. */
  lemma {:induction false} ReorderLastWrites(trace: seq<Flag>)
    ensures LastWrite(NoReorderForced, trace).Some? == LastWrite(ReorderForced, trace).Some?
    ensures LastWrite(ReorderForced, trace).Some? ==>
              LastWrite(NoReorderForced, trace).value == !LastWrite(ReorderForced, trace).value
    decreases |trace|
  {
    if trace != [] {
      ReorderLastWrites(trace[..|trace| - 1]);
    }
  }

  /** After -reorder or -no-reorder, exactly one of the two force flags is set. */
  lemma ReorderExclusive(enabled: set<Switch>, trace: seq<Flag>)
    requires Reorder in trace || NoReorder in trace
    ensures (ReorderForced in Replay(enabled, trace)) != (NoReorderForced in Replay(enabled, trace))
  {
    var i :| 0 <= i < |trace| && (trace[i] == Reorder || trace[i] == NoReorder);
    assert Writes(ReorderForced, trace[i]).Some?;
    LastWriteSpec(f => Writes(ReorderForced, f), trace);
    ReorderLastWrites(trace);
    ReplayLastWrite(enabled, trace, ReorderForced);
    ReplayLastWrite(enabled, trace, NoReorderForced);
  }

  /** -negative, -nonegative and -iuwt: the last of them decides, and only -negative allows negative components. */
  lemma NegativeLastWins(enabled: set<Switch>, trace: seq<Flag>, i: nat)
    requires i < |trace| && (trace[i].Negative? || trace[i].NoNegative? || trace[i].IUWT?)
    requires forall j :: i < j < |trace| ==> !trace[j].Negative? && !trace[j].NoNegative? && !trace[j].IUWT?
    ensures NegativeAllowed in Replay(enabled, trace) <==> trace[i].Negative?
  {
    LastWriterWins(enabled, trace, NegativeAllowed, i);
  }

  /** -fitbeam, -nofitbeam and -theoreticbeam: the last of them decides, and only -fitbeam fits the beam. */
  lemma FitBeamLastWins(enabled: set<Switch>, trace: seq<Flag>, i: nat)
    requires i < |trace| && (trace[i].FitBeam? || trace[i].NoFitBeam? || trace[i].TheoreticBeam?)
    requires forall j :: i < j < |trace| ==> !trace[j].FitBeam? && !trace[j].NoFitBeam? && !trace[j].TheoreticBeam?
    ensures BeamFitted in Replay(enabled, trace) <==> trace[i].FitBeam?
  {
    LastWriterWins(enabled, trace, BeamFitted, i);
  }

  /** -circularbeam and -ellipticalbeam: the last of the two decides. */
  lemma CircularBeamLastWins(enabled: set<Switch>, trace: seq<Flag>, i: nat)
    requires i < |trace| && (trace[i].CircularBeam? || trace[i].EllipticalBeam?)
    requires forall j :: i < j < |trace| ==> !trace[j].CircularBeam? && !trace[j].EllipticalBeam?
    ensures BeamCircular in Replay(enabled, trace) <==> trace[i].CircularBeam?
  {
    LastWriterWins(enabled, trace, BeamCircular, i);
  }

  /** -smallinversion and -nosmallinversion: the last of the two decides. */
  lemma SmallInversionLastWins(enabled: set<Switch>, trace: seq<Flag>, i: nat)
    requires i < |trace| && (trace[i].SmallInversion? || trace[i].NoSmallInversion?)
    requires forall j :: i < j < |trace| ==> !trace[j].SmallInversion? && !trace[j].NoSmallInversion?
    ensures InversionSmall in Replay(enabled, trace) <==> trace[i].SmallInversion?
  {
    LastWriterWins(enabled, trace, InversionSmall, i);
  }
}

/** The saved list across restarts, and taking every breakpoint out again. */
module Restart {
  import opened Tracee
  import opened Sdb
  import opened Instrumented
  import opened Simulation
  import opened Editing
  import opened Sessions

  function Breaks(bps: seq<Bp>): (r: seq<Command>)
    ensures |r| == |bps|
  {
    seq(|bps|, i requires 0 <= i < |bps| => Break(bps[i].addr))
  }

  function Deletes(ids: seq<nat>): (r: seq<Command>)
    ensures |r| == |ids|
  {
    seq(|ids|, i requires 0 <= i < |ids| => Delete(ids[i]))
  }

  // ---------------------------------------------------------------- restart

  /** What planting `bps` after those already in place makes of a running session. */
  function Planting(s: State, out: Option<(Mem, seq<Bp>)>): Session
    requires s.proc.Live?
  {
    match out
    case None => Quit
    case Some((m, bps)) => Prompt(s.(bps := s.bps + bps, proc := Live(s.proc.regs, m)))
  }

  ghost predicate Unknown(s: State, addr: Addr) {
    forall i :: 0 <= i < |s.bps| ==> s.bps[i].addr != addr
  }

  /** The state with one more breakpoint. */
  function WithOneMore(s: State, bp: Bp): State
    requires s.proc.Live? && Readable(s.proc.mem, Loc(s.base, bp))
  {
    var a, m := Loc(s.base, bp), s.proc.mem;
    s.(bps := s.bps + [bp.(ovalue := m[a])], proc := Live(s.proc.regs, m[a := INT3]))
  }

  /** One `break` on a new address, as the loop of `start` plants it. */
  lemma BreakPlantsOne(cpu: Cpu, s: State, bp: Bp)
    requires s.status.Running? && s.proc.Live? && Unknown(s, bp.addr)
    ensures var a := Loc(s.base, bp);
      Execute(cpu, s, Break(bp.addr)) ==
        if Readable(s.proc.mem, a) then Prompt(WithOneMore(s, bp)) else Quit
  {
  }

  lemma PlantingCons(s: State, bps: seq<Bp>)
    requires s.proc.Live? && bps != [] && Readable(s.proc.mem, Loc(s.base, bps[0]))
    ensures var s1 := WithOneMore(s, bps[0]);
      Planting(s, PlantAll(s.proc.mem, s.base, bps)) == Planting(s1, PlantAll(s1.proc.mem, s.base, bps[1..]))
  {
    var s1 := WithOneMore(s, bps[0]);
    var out := PlantAll(s1.proc.mem, s.base, bps[1..]);
    if out.Some? { assert s.bps + (s1.bps[|s.bps|..] + out.value.1) == s1.bps + out.value.1; }
  }

  /** Setting breakpoints one command at a time is the loop of `start`, step for step. */
  lemma {:induction false} BreaksPlant(cpu: Cpu, s: State, bps: seq<Bp>)
    requires s.status.Running? && s.proc.Live? && NoDup(bps)
    requires forall i :: 0 <= i < |bps| ==> Unknown(s, bps[i].addr)
    ensures ExecuteAll(cpu, Prompt(s), Breaks(bps)) == Planting(s, PlantAll(s.proc.mem, s.base, bps))
    decreases |bps|
  {
    if bps == [] {
      assert s.bps + [] == s.bps;
    } else {
      var rest := bps[1..];
      assert Breaks(bps)[0] == Break(bps[0].addr) && Breaks(bps)[1..] == Breaks(rest);
      assert Unknown(s, bps[0].addr);
      BreakPlantsOne(cpu, s, bps[0]);
      if Readable(s.proc.mem, Loc(s.base, bps[0])) {
        var s1 := WithOneMore(s, bps[0]);
        forall i | 0 <= i < |rest|
          ensures Unknown(s1, rest[i].addr)
        {
          assert rest[i] == bps[i + 1] && Unknown(s, bps[i + 1].addr);
        }
        BreaksPlant(cpu, s1, rest);
        PlantingCons(s, bps);
      }
    }
  }

  lemma {:induction false} PlantAllKeepsAddresses(m: Mem, base: Addr, bps: seq<Bp>)
    ensures var out := PlantAll(m, base, bps);
      out.Some? ==> |out.value.1| == |bps| && forall i :: 0 <= i < |bps| ==> out.value.1[i].addr == bps[i].addr
    decreases |bps|
  {
    if bps != [] && Readable(m, Loc(base, bps[0])) {
      PlantAllKeepsAddresses(m[Loc(base, bps[0]) := INT3], base, bps[1..]);
    }
  }

  lemma {:induction false} BreaksKeepNoDup(cpu: Cpu, s: State, bps: seq<Bp>)
    requires NoDup(s.bps)
    ensures var out := ExecuteAll(cpu, Prompt(s), Breaks(bps)); out.Prompt? ==> NoDup(out.state.bps)
    decreases |bps|
  {
    if bps != [] {
      assert Breaks(bps)[0] == Break(bps[0].addr) && Breaks(bps)[1..] == Breaks(bps[1..]);
      var out := Execute(cpu, s, Break(bps[0].addr));
      if out.Prompt? {
        assert NoDup(out.state.bps);
        BreaksKeepNoDup(cpu, out.state, bps[1..]);
      }
    }
  }

  /** Restarting with a saved list equals starting with an empty one and setting each breakpoint
      again in order, for any image and load base, if and only if no address is saved twice.
      A fatal restart is fatal both ways. */
  lemma RestartIsFresh(cpu: Cpu, s: State, image: Image)
    requires s.status.Loaded?
    ensures DoStart(s.(bps := []), image).Prompt?
    ensures var anew := ExecuteAll(cpu, DoStart(s.(bps := []), image), Breaks(s.bps));
      && (NoDup(s.bps) ==> anew == DoStart(s, image))
      && (DoStart(s, image).Prompt? ==> (anew == DoStart(s, image) <==> NoDup(s.bps)))
  {
    var s0 := DoStart(s.(bps := []), image).state;
    var base := if s.dynamic then image.base else 0;
    if NoDup(s.bps) {
      assert forall i :: 0 <= i < |s.bps| ==> Unknown(s0, s.bps[i].addr);
      BreaksPlant(cpu, s0, s.bps);
      var out := PlantAll(image.mem, base, s.bps);
      if out.Some? { assert s0.bps + out.value.1 == out.value.1; }
    } else if DoStart(s, image).Prompt? {
      PlantAllKeepsAddresses(image.mem, base, s.bps);
      BreaksKeepNoDup(cpu, s0, s.bps);
    }
  }

  // ---------------------------------------------------------------- taking everything out

  /** `ids` names some breakpoint still listed at each deletion, until none is left. */
  ghost predicate Empties(ids: seq<nat>, count: nat) {
    |ids| == count && forall k :: 0 <= k < count ==> ids[k] < count - k
  }

  /** Deleting every breakpoint, in any order, leaves exactly the undebugged program: its memory
      byte for byte, its registers, and an empty list. */
  lemma {:induction false} DeletingAllRestores(cpu: Cpu, s: State, c: Undebugged, ids: seq<nat>)
    requires Tracks(s, c) && Empties(ids, |s.bps|)
    ensures ExecuteAll(cpu, Prompt(s), Deletes(ids)) == Prompt(s.(bps := [], proc := Live(c.regs, c.mem)))
    decreases |ids|
  {
    if ids == [] {
      assert s.bps == [] && Locs(s.base, s.bps) == {};
      assert s.proc.mem == c.mem;
    } else {
      DeleteEffect(s, c, ids[0]);
      var s1 := DoDelete(s, ids[0]).state;
      assert Deletes(ids)[0] == Delete(ids[0]) && Deletes(ids)[1..] == Deletes(ids[1..]);
      assert Execute(cpu, s, Deletes(ids)[0]) == Prompt(s1);
      assert Empties(ids[1..], |s1.bps|);
      DeletingAllRestores(cpu, s1, c, ids[1..]);
    }
  }

  /** From wherever a session of a new debugger has stopped a process, taking every breakpoint out
      leaves the program the session has been debugging, with nothing of the debugger in it: the
      images launched, the registers assigned and the instructions executed determine its memory
      and registers. */
  lemma UninstrumentAnywhere(cpu: Cpu, regs: Regs, cmds: seq<Command>, ids: seq<nat>)
    requires Lawful(cpu) && LeavesAll(cpu, Prompt(NewState(regs)), Dead, cmds)
    requires var out := ExecuteAll(cpu, Prompt(NewState(regs)), cmds);
      out.Prompt? && out.state.status.Running? && Empties(ids, |out.state.bps|)
    ensures var s := ExecuteAll(cpu, Prompt(NewState(regs)), cmds).state;
      var ref := ReferenceAll(cpu, Prompt(NewState(regs)), Dead, cmds);
      ref.Alive? && ExecuteAll(cpu, Prompt(s), Deletes(ids)) == Prompt(s.(bps := [], proc := Live(ref.regs, ref.mem)))
  {
    EverySession(cpu, regs, cmds);
    var s := ExecuteAll(cpu, Prompt(NewState(regs)), cmds).state;
    DeletingAllRestores(cpu, s, ReferenceAll(cpu, Prompt(NewState(regs)), Dead, cmds), ids);
  }
}

/** `si` and `cont`, compared with the run of the undebugged program. */
module Stepping {
  import opened Tracee
  import opened Sdb
  import opened Instrumented
  import opened Simulation
  import History

  ghost predicate SameSetup(s: State, s': State) {
    s'.status == s.status && s'.dynamic == s.dynamic && s'.base == s.base && s'.bps == s.bps
  }

  /** The debugger has just reported breakpoint `id`: `rip` is at it, its byte is the original
      one, and all others are armed. */
  ghost predicate StoppedAt(s: State, id: nat) {
    && s.proc.Live? && id < |s.bps|
    && s.proc.regs.rip == Loc(s.base, s.bps[id])
    && s.proc.regs.rip in s.proc.mem && s.proc.mem[s.proc.regs.rip] == s.bps[id].ovalue
    && (forall i :: 0 <= i < |s.bps| && i != id ==> IsArmed(s.proc.mem, Loc(s.base, s.bps[i])))
    && s.log != [] && s.log[|s.log| - 1] == Hit(id, s.proc.regs.rip)
  }

  /** The same moment with `rip` one byte back. */
  function Backed(c: Undebugged): Undebugged {
    match c
    case Dead => Dead
    case Alive(r, m) => Alive(r.(rip := Prev(r.rip)), m)
  }

  /** The instruction about to run would end just past a breakpoint that is armed now, so that
      the stop after it looks like a hit. */
  ghost predicate Overshoots(s: State, c': Undebugged) {
    && s.proc.Live? && c'.Alive?
    && exists i: nat ::
         i < |s.bps| && Loc(s.base, s.bps[i]) == Prev(c'.regs.rip) && IsArmed(s.proc.mem, Loc(s.base, s.bps[i]))
  }

  // ---------------------------------------------------------------- stopping

  /** A stop with no int3 behind it leaves every breakpoint armed and everything else alone. */
  lemma ReportMiss(s: State, c: Undebugged)
    requires s.status.Running? && Mirrors(s, c) && forall i: nat :: !JustHit(s, i)
    ensures CheckBp(s).Some? && CheckBp(s).value.1 == None && Report(s) == Prompt(CheckBp(s).value.0)
    ensures var s' := Report(s).state;
      && SameSetup(s, s') && Tracks(s', c) && FullyArmed(s')
      && s'.retired == s.retired && s'.log == s.log + [Rearmed]
  {
    CheckBpEffect(s, c.mem);
  }

  lemma RestoreTracks(s: State, c: Undebugged, id: nat)
    requires s.status.Running? && Mirrors(s, c) && FullyArmed(s)
    requires id < |s.bps| && Loc(s.base, s.bps[id]) == Prev(c.regs.rip)
    ensures Restore(s, id).Some?
    ensures var s' := Restore(s, id).value;
      && SameSetup(s, s') && StoppedAt(s', id)
      && Tracks(s', Backed(c))
      && s'.retired == s.retired && s'.log == s.log + [Hit(id, Loc(s.base, s.bps[id]))]
  {
    RestoreEffect(s, id, c.mem);
  }

  lemma CheckBpMirrors(s: State, c: Undebugged)
    requires Mirrors(s, c)
    ensures CheckBp(s).Some?
    ensures var (s', hit) := CheckBp(s).value;
      && Mirrors(s', c) && FullyArmed(s') && SameSetup(s, s')
      && s'.retired == s.retired && s'.log == s.log + [Rearmed]
      && (forall i: nat :: hit == Some(i) <==> JustHit(s, i))
  {
    CheckBpEffect(s, c.mem);
  }

  /** A stop after breakpoint `id`'s int3 moves `rip` back onto it and disarms it alone. */
  lemma ReportHit(s: State, c: Undebugged, id: nat)
    requires s.status.Running? && Mirrors(s, c) && JustHit(s, id)
    ensures Report(s).Prompt?
    ensures var s' := Report(s).state;
      && SameSetup(s, s') && StoppedAt(s', id)
      && Tracks(s', Backed(c))
      && s'.retired == s.retired && s'.log == s.log + [Rearmed, Hit(id, Loc(s.base, s.bps[id]))]
  {
    CheckBpMirrors(s, c);
    var s1 := CheckBp(s).value.0;
    RestoreTracks(s1, c, id);
    assert Report(s) == Prompt(Restore(s1, id).value);
  }

  /** `cont` calls `checkbp` twice when its first step hits: the second call agrees. */
  lemma SecondCheckAgrees(s: State, c: Undebugged, id: nat)
    requires s.status.Running? && Mirrors(s, c) && JustHit(s, id)
    ensures CheckBp(s).Some? && CheckBp(s).value.1 == Some(id)
    ensures var s1 := CheckBp(s).value.0;
      Mirrors(s1, c) && SameSetup(s, s1) && JustHit(s1, id) && s1.retired == s.retired && s1.log == s.log + [Rearmed]
    ensures CheckBp(CheckBp(s).value.0).Some? && CheckBp(CheckBp(s).value.0).value.1 == Some(id)
  {
    CheckBpEffect(s, c.mem);
    var s1 := CheckBp(s).value.0;
    assert JustHit(s1, id);
    CheckBpEffect(s1, c.mem);
  }

  /** Whatever the program does and however memory got here: once `checkbp` has come back every
      breakpoint is armed, and that is the state in which `cont` resumes the process. */
  lemma ResumesFullyArmed(cpu: Cpu, s: State, extra: bool, fuel: nat)
    requires s.proc.Live? && (extra || s.status.Running?)
    ensures match CheckBp(StepTracee(cpu, s))
      case None => DoCont(cpu, s, extra, fuel) == Quit
      case Some((s2, hit)) =>
        && FullyArmed(s2)
        && DoCont(cpu, s, extra, fuel) == if hit.None? then Resume(cpu, s2, fuel) else Report(s2)
  {
    var s1 := StepTracee(cpu, s);
    if s1.proc.Live? {
      ArmAllEffect(s1.proc.mem, s1.base, s1.bps);
      if AllReadable(s1.base, s1.bps, s1.proc.mem) { ArmedEverywhere(s1.base, s1.bps, s1.proc.mem); }
    }
  }

  lemma ArmedEverywhere(base: Addr, bps: seq<Bp>, m: Mem)
    requires AllReadable(base, bps, m)
    ensures AllArmed(base, bps, Armed(m, Locs(base, bps)))
  {
    forall i | 0 <= i < |bps|
      ensures IsArmed(Armed(m, Locs(base, bps)), Loc(base, bps[i]))
    {
      assert Readable(m, Loc(base, bps[i])) && Loc(base, bps[i]) in Locs(base, bps);
    }
  }

  // ---------------------------------------------------------------- the single step

  /** Stepping onto an armed breakpoint: the trap leaves the process just past it. */
  lemma StepTraps(cpu: Cpu, at: set<Addr>, s: State, c: Undebugged) returns (id: nat)
    requires Lawful(cpu) && Tracks(s, c) && Locs(s.base, s.bps) <= at && Untouched(cpu, at, c)
    requires AtArmed(s)
    ensures var s1 := StepTracee(cpu, s);
      && SameSetup(s, s1) && s1.retired == s.retired && s1.log == s.log + [Stepped]
      && Mirrors(s1, Alive(c.regs.(rip := Next(c.regs.rip)), c.mem)) && JustHit(s1, id)
    ensures id < |s.bps| && Loc(s.base, s.bps[id]) == s.proc.regs.rip
  {
    StepEffect(cpu, at, s.base, s.bps, s.proc.regs, s.proc.mem, c.mem);
    id :| id < |s.bps| && Loc(s.base, s.bps[id]) == s.proc.regs.rip;
    PrevNext(c.regs.rip);
  }

  /** Stepping anywhere else: one instruction of the undebugged run, and the stop that follows
      looks like a hit exactly when that instruction overshoots an armed breakpoint. */
  lemma StepRuns(cpu: Cpu, at: set<Addr>, s: State, c: Undebugged)
    requires Lawful(cpu) && Tracks(s, c) && Locs(s.base, s.bps) <= at && Untouched(cpu, at, c)
    requires !AtArmed(s) && Advance(cpu, c).Alive?
    ensures var s1 := StepTracee(cpu, s);
      && SameSetup(s, s1) && s1.retired == s.retired + 1 && s1.log == s.log + [Stepped]
      && Mirrors(s1, Advance(cpu, c))
      && ((exists i: nat :: JustHit(s1, i)) <==> Overshoots(s, Advance(cpu, c)))
  {
    StepEffect(cpu, at, s.base, s.bps, s.proc.regs, s.proc.mem, c.mem);
    var s1, c' := StepTracee(cpu, s), Advance(cpu, c);
    forall i: nat | i < |s.bps|
      ensures IsArmed(s1.proc.mem, Loc(s.base, s.bps[i])) <==> IsArmed(s.proc.mem, Loc(s.base, s.bps[i]))
    {
      assert Loc(s.base, s.bps[i]) in Locs(s.base, s.bps);
    }
    forall i: nat
      ensures JustHit(s1, i) <==> i < |s.bps| && Loc(s.base, s.bps[i]) == Prev(c'.regs.rip)
                                  && IsArmed(s.proc.mem, Loc(s.base, s.bps[i]))
    {
    }
  }

  /** A program that reaches the byte after a breakpoint only from that breakpoint never
      overshoots, not even with a one-byte instruction under a disarmed breakpoint. */
  lemma FairNeverOvershoots(cpu: Cpu, at: set<Addr>, s: State, c: Undebugged)
    requires Tracks(s, c) && Locs(s.base, s.bps) <= at && LandsFair(cpu, at, c) && !AtArmed(s)
    ensures !Overshoots(s, Advance(cpu, c))
  {
    var c' := Advance(cpu, c);
    if Overshoots(s, c') {
      var i: nat :|
        i < |s.bps| && Loc(s.base, s.bps[i]) == Prev(c'.regs.rip) && IsArmed(s.proc.mem, Loc(s.base, s.bps[i]));
      PrevNext(c'.regs.rip);
      assert false;
    }
  }

  /** `checkbp` after a single step names breakpoint i if and only if the step executed that
      breakpoint's int3: no other stop is taken for a hit, and no hit is missed. */
  lemma StepHitsExactly(cpu: Cpu, at: set<Addr>, s: State, c: Undebugged, i: nat)
    requires Lawful(cpu) && Tracks(s, c) && Locs(s.base, s.bps) <= at && Untouched(cpu, at, c)
    requires LandsFair(cpu, at, c) && (AtArmed(s) || Advance(cpu, c).Alive?)
    ensures CheckBp(StepTracee(cpu, s)).Some?
    ensures CheckBp(StepTracee(cpu, s)).value.1 == Some(i) <==>
      AtArmed(s) && i < |s.bps| && Loc(s.base, s.bps[i]) == s.proc.regs.rip
  {
    var s1 := StepTracee(cpu, s);
    if AtArmed(s) {
      var id := StepTraps(cpu, at, s, c);
      CheckBpMirrors(s1, Alive(c.regs.(rip := Next(c.regs.rip)), c.mem));
      HitAt(s1, id, i);
    } else {
      StepRuns(cpu, at, s, c);
      FairNeverOvershoots(cpu, at, s, c);
      CheckBpMirrors(s1, Advance(cpu, c));
      assert !JustHit(s1, i);
    }
  }

  /** Which breakpoint was just hit is settled by its address. */
  lemma HitAt(s: State, id: nat, i: nat)
    requires s.proc.Live? && NoDup(s.bps) && JustHit(s, id)
    ensures JustHit(s, i) <==> i < |s.bps| && Loc(s.base, s.bps[i]) == Loc(s.base, s.bps[id])
  {
    if i < |s.bps| { LocsDistinct(s.base, s.bps, i, id); }
  }

  // ---------------------------------------------------------------- si

  /** `si` at an armed breakpoint runs nothing: it reports that breakpoint, keeps `rip`, and
      leaves it the only one disarmed. */
  lemma SiAtBreakpoint(cpu: Cpu, at: set<Addr>, s: State, c: Undebugged)
    requires Lawful(cpu) && Tracks(s, c) && Locs(s.base, s.bps) <= at && Untouched(cpu, at, c)
    requires AtArmed(s)
    ensures DoSi(cpu, s).Prompt?
    ensures var s' := DoSi(cpu, s).state;
      && SameSetup(s, s') && s'.retired == s.retired && Tracks(s', c)
      && exists id: nat :: StoppedAt(s', id) && s'.log == s.log + [Stepped, Rearmed, Hit(id, c.regs.rip)]
  {
    var id := StepTraps(cpu, at, s, c);
    var s1, c1 := StepTracee(cpu, s), Alive(c.regs.(rip := Next(c.regs.rip)), c.mem);
    ReportHit(s1, c1, id);
    PrevNext(c.regs.rip);
    var s' := Report(s1).state;
    assert c1.regs.(rip := Prev(c1.regs.rip)) == c.regs;
    assert s.log + [Stepped, Rearmed, Hit(id, c.regs.rip)] == (s.log + [Stepped]) + [Rearmed, Hit(id, c.regs.rip)];
    assert StoppedAt(s', id);
  }

  lemma SiSteps(cpu: Cpu, at: set<Addr>, s: State, c: Undebugged)
    requires Lawful(cpu) && Tracks(s, c) && Locs(s.base, s.bps) <= at && Untouched(cpu, at, c)
    requires !AtArmed(s) && Advance(cpu, c).Alive? && !Overshoots(s, Advance(cpu, c))
    ensures DoSi(cpu, s).Prompt?
    ensures var s' := DoSi(cpu, s).state;
      && SameSetup(s, s') && s'.retired == s.retired + 1 && s'.log == s.log + [Stepped, Rearmed]
      && Tracks(s', Advance(cpu, c)) && FullyArmed(s')
  {
    StepRuns(cpu, at, s, c);
    ReportMiss(StepTracee(cpu, s), Advance(cpu, c));
    assert s.log + [Stepped, Rearmed] == (s.log + [Stepped]) + [Rearmed];
  }

  lemma BackedIsOff(s: State, c: Undebugged)
    requires Tracks(s, Backed(c))
    ensures !Tracks(s, c)
  {
  }

  /** A stop taken for a hit where the program has jumped. */
  lemma OvershotStop(s: State, c: Undebugged, id: nat)
    requires s.status.Running? && Mirrors(s, c) && JustHit(s, id)
    ensures Report(s).Prompt?
    ensures var s' := Report(s).state;
      && SameSetup(s, s') && s'.retired == s.retired && !Tracks(s', c) && Tracks(s', Backed(c))
      && StoppedAt(s', id) && s'.log == s.log + [Rearmed, Hit(id, s'.proc.regs.rip)]
  {
    ReportHit(s, c, id);
    BackedIsOff(Report(s).state, c);
  }

  lemma SiOvershoots(cpu: Cpu, at: set<Addr>, s: State, c: Undebugged)
    requires Lawful(cpu) && Tracks(s, c) && Locs(s.base, s.bps) <= at && Untouched(cpu, at, c)
    requires !AtArmed(s) && Advance(cpu, c).Alive? && Overshoots(s, Advance(cpu, c))
    ensures DoSi(cpu, s).Prompt?
    ensures var s', c' := DoSi(cpu, s).state, Advance(cpu, c);
      && SameSetup(s, s') && s'.retired == s.retired + 1 && !Tracks(s', c')
      && Tracks(s', Backed(c')) && exists id: nat :: StoppedAt(s', id)
  {
    StepRuns(cpu, at, s, c);
    var s1 := StepTracee(cpu, s);
    var i: nat :| JustHit(s1, i);
    OvershotStop(s1, Advance(cpu, c), i);
  }

  /** Elsewhere `si` is exactly one step of the undebugged run if and only if that step does
      not overshoot an armed breakpoint; when it does, `rip` ends one byte short. */
  lemma SiElsewhere(cpu: Cpu, at: set<Addr>, s: State, c: Undebugged)
    requires Lawful(cpu) && Tracks(s, c) && Locs(s.base, s.bps) <= at && Untouched(cpu, at, c)
    requires !AtArmed(s) && Advance(cpu, c).Alive?
    ensures DoSi(cpu, s).Prompt?
    ensures var s', c' := DoSi(cpu, s).state, Advance(cpu, c);
      && SameSetup(s, s') && s'.retired == s.retired + 1
      && (Tracks(s', c') <==> !Overshoots(s, c'))
      && (Overshoots(s, c') ==>
            && Tracks(s', Backed(c'))
            && exists id: nat :: StoppedAt(s', id))
      && (!Overshoots(s, c') ==> FullyArmed(s') && s'.log == s.log + [Stepped, Rearmed])
  {
    if Overshoots(s, Advance(cpu, c)) {
      SiOvershoots(cpu, at, s, c);
    } else {
      SiSteps(cpu, at, s, c);
    }
  }

  /** `si` ends the debugger exactly when the instruction it steps ends the process. */
  lemma SiQuitsOnExit(cpu: Cpu, at: set<Addr>, s: State, c: Undebugged)
    requires Lawful(cpu) && Tracks(s, c) && Locs(s.base, s.bps) <= at && Untouched(cpu, at, c)
    ensures DoSi(cpu, s) == Quit <==> !AtArmed(s) && Advance(cpu, c).Dead?
  {
    if AtArmed(s) {
      SiAtBreakpoint(cpu, at, s, c);
    } else if Advance(cpu, c).Alive? {
      SiElsewhere(cpu, at, s, c);
    } else {
      StepEffect(cpu, at, s.base, s.bps, s.proc.regs, s.proc.mem, c.mem);
    }
  }

  /** Every `si` advances the undebugged run by exactly one step, or by none exactly when `rip`
      is at an armed breakpoint, which is then reported and left the only one disarmed. */
  lemma SiAdvances(cpu: Cpu, at: set<Addr>, s: State, c: Undebugged)
    requires Lawful(cpu) && Tracks(s, c) && Locs(s.base, s.bps) <= at
    requires Untouched(cpu, at, c) && LandsFair(cpu, at, c)
    ensures var out := DoSi(cpu, s);
      var n := if AtArmed(s) then 0 else 1;
      if Run(cpu, c, n).Dead? then out == Quit
      else
        && out.Prompt? && SameSetup(s, out.state)
        && out.state.retired == s.retired + n && Tracks(out.state, Run(cpu, c, n))
        && (AtArmed(s) ==> exists id: nat :: StoppedAt(out.state, id))
        && (!AtArmed(s) ==> FullyArmed(out.state))
  {
    assert Run(cpu, c, 0) == c && Run(cpu, c, 1) == Run(cpu, Advance(cpu, c), 0) == Advance(cpu, c);
    if AtArmed(s) {
      SiAtBreakpoint(cpu, at, s, c);
    } else if Advance(cpu, c).Alive? {
      FairNeverOvershoots(cpu, at, s, c);
      SiSteps(cpu, at, s, c);
    } else {
      SiQuitsOnExit(cpu, at, s, c);
    }
  }

  // ---------------------------------------------------------------- cont

  /** How a resumption from state `c` of the undebugged run may end. `start` is the number of
      instructions retired before it. Stopped: at the first breakpoint from `c` on. Exited: the
      program ended and met none. Waiting: `fuel` instructions later it has met none. */
  ghost predicate ResumeMatches(cpu: Cpu, s: State, c: Undebugged, start: nat, fuel: nat, out: Session) {
    var at := Locs(s.base, s.bps);
    match out
    case Quit => false
    case Waiting(s') =>
      && SameSetup(s, s') && s'.retired == start + fuel
      && Mirrors(s', Run(cpu, c, fuel)) && FullyArmed(s') && Clear(cpu, at, c, fuel)
    case Prompt(s') =>
      var n := s'.retired - start;
      && 0 <= n < fuel && Clear(cpu, at, c, n)
      && if s'.status.Running? then
           && SameSetup(s, s') && Tracks(s', Run(cpu, c, n)) && s'.proc.regs.rip in at
           && exists id: nat :: StoppedAt(s', id)
         else
           && SameSetup(s.(status := Loaded), s') && s'.proc.Gone?
           && Clear(cpu, at, c, n + 1) && Advance(cpu, Run(cpu, c, n)).Dead?
  }

  lemma TrapIsHit(s: State, c: Undebugged) returns (id: nat)
    requires c.Alive? && c.regs.rip in Locs(s.base, s.bps)
    requires Mirrors(s, Alive(c.regs.(rip := Next(c.regs.rip)), c.mem)) && FullyArmed(s)
    ensures JustHit(s, id) && Loc(s.base, s.bps[id]) == c.regs.rip
  {
    id :| id < |s.bps| && Loc(s.base, s.bps[id]) == c.regs.rip;
    PrevNext(c.regs.rip);
  }

  lemma ReportTrap(s: State, c: Undebugged)
    requires s.status.Running? && c.Alive? && c.regs.rip in Locs(s.base, s.bps)
    requires Mirrors(s, Alive(c.regs.(rip := Next(c.regs.rip)), c.mem)) && FullyArmed(s)
    ensures Report(s).Prompt?
    ensures var s' := Report(s).state;
      && SameSetup(s, s') && Tracks(s', c) && s'.retired == s.retired
      && s'.proc.regs.rip in Locs(s.base, s.bps)
      && exists id: nat :: StoppedAt(s', id) && s'.log == s.log + [Rearmed, Hit(id, c.regs.rip)]
  {
    var id := TrapIsHit(s, c);
    PrevNext(c.regs.rip);
    ReportHit(s, Alive(c.regs.(rip := Next(c.regs.rip)), c.mem), id);
    assert c.regs.(rip := Next(c.regs.rip)).(rip := Prev(Next(c.regs.rip))) == c.regs;
    assert StoppedAt(Report(s).state, id);
  }

  lemma StopMatches(cpu: Cpu, s: State, c: Undebugged, n: nat, fuel: nat, s': State)
    requires s.status.Running? && n < fuel && Clear(cpu, Locs(s.base, s.bps), c, n)
    requires SameSetup(s, s') && s'.retired == s.retired + n && Tracks(s', Run(cpu, c, n))
    requires s'.proc.regs.rip in Locs(s.base, s.bps) && exists id: nat :: StoppedAt(s', id)
    ensures ResumeMatches(cpu, s, c, s.retired, fuel, Prompt(s'))
  {
  }

  function Trapping(s: State, h: Halt): State
    requires h.AtTrap?
  {
    s.(proc := Live(h.regs, h.mem), retired := s.retired + h.steps)
  }

  lemma TrapMirrors(cpu: Cpu, s: State, c: Undebugged, fuel: nat, h: Halt)
    requires s.status.Running? && NoDup(s.bps) && h.AtTrap? && FreeRunMatches(cpu, s.base, s.bps, c, fuel, h)
    ensures var s1, d := Trapping(s, h), Run(cpu, c, h.steps);
      && d.Alive? && d.regs.rip in Locs(s.base, s.bps) && SameSetup(s, s1)
      && Mirrors(s1, Alive(d.regs.(rip := Next(d.regs.rip)), d.mem)) && FullyArmed(s1)
  {
  }

  /** `checkbp` after a free resumption that trapped names breakpoint i if and only if the run
      stands at it: the int3 executed was that breakpoint's. */
  lemma TrapHitsExactly(cpu: Cpu, at: set<Addr>, s: State, c: Undebugged, fuel: nat, i: nat)
    requires Lawful(cpu) && s.status.Running? && Mirrors(s, c) && FullyArmed(s)
    requires Locs(s.base, s.bps) <= at && UntouchedRun(cpu, at, c)
    requires RunFree(cpu, s.proc.regs, s.proc.mem, fuel).AtTrap?
    ensures var h := RunFree(cpu, s.proc.regs, s.proc.mem, fuel);
      var d := Run(cpu, c, h.steps);
      && CheckBp(Trapping(s, h)).Some? && d.Alive?
      && (CheckBp(Trapping(s, h)).value.1 == Some(i) <==> i < |s.bps| && Loc(s.base, s.bps[i]) == d.regs.rip)
  {
    var h := RunFree(cpu, s.proc.regs, s.proc.mem, fuel);
    FreeRunEffect(cpu, at, s.base, s.bps, s.proc.regs, s.proc.mem, c.mem, fuel);
    TrapMirrors(cpu, s, c, fuel, h);
    var s1, d := Trapping(s, h), Run(cpu, c, h.steps);
    CheckBpMirrors(s1, Alive(d.regs.(rip := Next(d.regs.rip)), d.mem));
    var id := TrapIsHit(s1, d);
    HitAt(s1, id, i);
  }

  lemma TrapMatches(cpu: Cpu, s: State, c: Undebugged, fuel: nat, h: Halt)
    requires s.status.Running? && NoDup(s.bps) && h.AtTrap? && FreeRunMatches(cpu, s.base, s.bps, c, fuel, h)
    ensures ResumeMatches(cpu, s, c, s.retired, fuel, Report(Trapping(s, h)))
  {
    TrapMirrors(cpu, s, c, fuel, h);
    ReportTrap(Trapping(s, h), Run(cpu, c, h.steps));
    StopMatches(cpu, s, c, h.steps, fuel, Report(Trapping(s, h)).state);
  }

  lemma AfterTrap(cpu: Cpu, s: State, c: Undebugged, fuel: nat, h: Halt)
    requires s.status.Running? && NoDup(s.bps) && h.AtTrap? && FreeRunMatches(cpu, s.base, s.bps, c, fuel, h)
    ensures ResumeMatches(cpu, s, c, s.retired, fuel, AfterResume(s, h))
  {
    TrapMatches(cpu, s, c, fuel, h);
    assert AfterResume(s, h) == Report(Trapping(s, h));
  }

  lemma AfterExitOrBusy(cpu: Cpu, s: State, c: Undebugged, fuel: nat, h: Halt)
    requires s.status.Running? && NoDup(s.bps) && !h.AtTrap? && FreeRunMatches(cpu, s.base, s.bps, c, fuel, h)
    ensures ResumeMatches(cpu, s, c, s.retired, fuel, AfterResume(s, h))
  {
  }

  lemma ResumeMatchesSetup(cpu: Cpu, s: State, s1: State, c: Undebugged, start: nat, fuel: nat, out: Session)
    requires SameSetup(s, s1) && ResumeMatches(cpu, s1, c, start, fuel, out)
    ensures ResumeMatches(cpu, s, c, start, fuel, out)
  {
  }

  lemma ResumeEffect(cpu: Cpu, at: set<Addr>, s: State, c: Undebugged, fuel: nat)
    requires Lawful(cpu) && s.status.Running? && Mirrors(s, c) && FullyArmed(s)
    requires Locs(s.base, s.bps) <= at && UntouchedRun(cpu, at, c)
    ensures ResumeMatches(cpu, s, c, s.retired, fuel, Resume(cpu, s, fuel))
  {
    FreeRunEffect(cpu, at, s.base, s.bps, s.proc.regs, s.proc.mem, c.mem, fuel);
    var h, s1 := RunFree(cpu, s.proc.regs, s.proc.mem, fuel), s.(log := s.log + [Resumed]);
    if h.AtTrap? {
      AfterTrap(cpu, s1, c, fuel, h);
    } else {
      AfterExitOrBusy(cpu, s1, c, fuel, h);
    }
    ResumeMatchesSetup(cpu, s, s1, c, s.retired, fuel, AfterResume(s1, h));
  }

  /** The leading step of `cont` and its `checkbp`, when the step traps. */
  lemma StepThenHit(cpu: Cpu, at: set<Addr>, s: State, c: Undebugged) returns (s2: State, id: nat)
    requires Lawful(cpu) && Tracks(s, c) && Locs(s.base, s.bps) <= at && Untouched(cpu, at, c)
    requires AtArmed(s)
    ensures CheckBp(StepTracee(cpu, s)) == Some((s2, Some(id)))
    ensures SameSetup(s, s2) && s2.retired == s.retired && FullyArmed(s2)
    ensures s2.log == s.log + [Stepped, Rearmed]
    ensures Mirrors(s2, Alive(c.regs.(rip := Next(c.regs.rip)), c.mem))
  {
    id := StepTraps(cpu, at, s, c);
    var s1 := StepTracee(cpu, s);
    CheckBpMirrors(s1, Alive(c.regs.(rip := Next(c.regs.rip)), c.mem));
    s2 := CheckBp(s1).value.0;
    assert (s.log + [Stepped]) + [Rearmed] == s.log + [Stepped, Rearmed];
  }

  /** The same when the step runs an instruction: a hit or a miss by whether it overshoots. */
  lemma StepThenCheck(cpu: Cpu, at: set<Addr>, s: State, c: Undebugged) returns (s2: State, hit: Option<nat>)
    requires Lawful(cpu) && Tracks(s, c) && Locs(s.base, s.bps) <= at && Untouched(cpu, at, c)
    requires !AtArmed(s) && Advance(cpu, c).Alive?
    ensures CheckBp(StepTracee(cpu, s)) == Some((s2, hit))
    ensures SameSetup(s, s2) && s2.retired == s.retired + 1 && FullyArmed(s2) && Mirrors(s2, Advance(cpu, c))
    ensures s2.log == s.log + [Stepped, Rearmed]
    ensures hit.Some? <==> Overshoots(s, Advance(cpu, c))
    ensures hit.Some? ==> JustHit(s2, hit.value)
  {
    StepRuns(cpu, at, s, c);
    var s1, c' := StepTracee(cpu, s), Advance(cpu, c);
    CheckBpMirrors(s1, c');
    s2, hit := CheckBp(s1).value.0, CheckBp(s1).value.1;
    assert (s.log + [Stepped]) + [Rearmed] == s.log + [Stepped, Rearmed];
    if hit.Some? {
      assert JustHit(s1, hit.value);
    }
  }

  /** `cont` at an armed breakpoint goes nowhere and reports it, like `si`. */
  lemma ContAtBreakpoint(cpu: Cpu, at: set<Addr>, s: State, c: Undebugged, extra: bool, fuel: nat)
    requires Lawful(cpu) && Tracks(s, c) && Locs(s.base, s.bps) <= at && Untouched(cpu, at, c)
    requires AtArmed(s)
    ensures DoCont(cpu, s, extra, fuel).Prompt?
    ensures var s' := DoCont(cpu, s, extra, fuel).state;
      && SameSetup(s, s') && s'.retired == s.retired && Tracks(s', c)
      && exists id: nat :: StoppedAt(s', id) && s'.log == s.log + [Stepped, Rearmed, Rearmed, Hit(id, c.regs.rip)]
  {
    var s2, _ := StepThenHit(cpu, at, s, c);
    ReportTrap(s2, c);
    assert DoCont(cpu, s, extra, fuel) == Report(s2);
    var id: nat :| StoppedAt(Report(s2).state, id) && Report(s2).state.log == s2.log + [Rearmed, Hit(id, c.regs.rip)];
    assert s2.log + [Rearmed, Hit(id, c.regs.rip)] == s.log + [Stepped, Rearmed, Rearmed, Hit(id, c.regs.rip)];
  }

  /** `cont` elsewhere takes one step and then runs on to the first breakpoint. */
  lemma ContElsewhere(cpu: Cpu, at: set<Addr>, s: State, c: Undebugged, extra: bool, fuel: nat)
    requires Lawful(cpu) && Tracks(s, c) && Locs(s.base, s.bps) <= at && UntouchedRun(cpu, at, c)
    requires !AtArmed(s) && Advance(cpu, c).Alive? && !Overshoots(s, Advance(cpu, c))
    ensures ResumeMatches(cpu, s, Advance(cpu, c), s.retired + 1, fuel, DoCont(cpu, s, extra, fuel))
  {
    assert Untouched(cpu, at, Run(cpu, c, 0));
    var s2, hit := StepThenCheck(cpu, at, s, c);
    var c' := Advance(cpu, c);
    UntouchedLater(cpu, at, c, 1);
    assert Run(cpu, c, 1) == Run(cpu, c', 0);
    ResumeEffect(cpu, at, s2, c', fuel);
    assert DoCont(cpu, s, extra, fuel) == Resume(cpu, s2, fuel);
    ResumeMatchesSetup(cpu, s, s2, c', s.retired + 1, fuel, Resume(cpu, s2, fuel));
  }

  /** A free resumption is logged before anything that follows it; a stop adds the re-arming pass
      and perhaps one hit, and nothing else adds anything. */
  lemma ResumeLogs(cpu: Cpu, s: State, fuel: nat)
    requires s.proc.Live?
    ensures var out := Resume(cpu, s, fuel);
      !out.Quit? ==>
        || out.state.log == s.log + [Resumed]
        || (out.Prompt? && out.state.proc.Live? && History.StopLogged(s.log + [Resumed], out.state.log))
  {
    var h, s1 := RunFree(cpu, s.proc.regs, s.proc.mem, fuel), s.(log := s.log + [Resumed]);
    if h.AtTrap? { History.ReportLog(Trapping(s1, h)); }
  }

  /** The history after a free resumption: what it was when the process was resumed, and then what
      a stop adds. */
  ghost predicate RunLogged(begun: seq<Event>, out: Session) {
    && !out.Quit?
    && (out.Waiting? || !out.state.status.Running? ==> out.state.log == begun)
    && (out.Prompt? && out.state.status.Running? ==>
          exists id: nat :: StoppedAt(out.state, id)
            && out.state.log == begun + [Rearmed, Hit(id, out.state.proc.regs.rip)])
  }

  lemma ResumedLogged(cpu: Cpu, s: State, c: Undebugged, start: nat, fuel: nat, begun: seq<Event>, out: Session)
    requires s.status.Running? && ResumeMatches(cpu, s, c, start, fuel, out)
    requires begun != [] && begun[|begun| - 1] == Resumed
    requires out.state.log == begun || (out.Prompt? && out.state.proc.Live? && History.StopLogged(begun, out.state.log))
    ensures RunLogged(begun, out)
  {
    if out.Prompt? && out.state.status.Running? {
      var id: nat :| StoppedAt(out.state, id);
      StopIsHit(begun, out.state, id);
    }
  }

  lemma StopIsHit(log: seq<Event>, s: State, id: nat)
    requires StoppedAt(s, id) && (s.log == log || History.StopLogged(log, s.log))
    requires log != [] && log[|log| - 1] == Resumed
    ensures s.log == log + [Rearmed, Hit(id, s.proc.regs.rip)]
  {
  }

  /** The history of a `cont` away from armed breakpoints: its leading step, the re-arming pass and
      the free resumption come first, in this order, whatever stops the process later. */
  lemma ContLogs(cpu: Cpu, at: set<Addr>, s: State, c: Undebugged, extra: bool, fuel: nat)
    requires Lawful(cpu) && Tracks(s, c) && Locs(s.base, s.bps) <= at && UntouchedRun(cpu, at, c)
    requires !AtArmed(s) && Advance(cpu, c).Alive? && !Overshoots(s, Advance(cpu, c))
    ensures RunLogged(s.log + [Stepped, Rearmed, Resumed], DoCont(cpu, s, extra, fuel))
  {
    assert Untouched(cpu, at, Run(cpu, c, 0));
    var s2, hit := StepThenCheck(cpu, at, s, c);
    var out, begun := DoCont(cpu, s, extra, fuel), s.log + [Stepped, Rearmed, Resumed];
    assert out == Resume(cpu, s2, fuel) && s2.log + [Resumed] == begun;
    ContElsewhere(cpu, at, s, c, extra, fuel);
    ResumeLogs(cpu, s2, fuel);
    ResumedLogged(cpu, s, Advance(cpu, c), s.retired + 1, fuel, begun, out);
  }

  /** `cont` ends the debugger exactly when its leading step ends the process. */
  lemma ContQuitsOnExit(cpu: Cpu, at: set<Addr>, s: State, c: Undebugged, extra: bool, fuel: nat)
    requires Lawful(cpu) && Tracks(s, c) && Locs(s.base, s.bps) <= at && UntouchedRun(cpu, at, c)
    ensures DoCont(cpu, s, extra, fuel) == Quit <==> !AtArmed(s) && Advance(cpu, c).Dead?
  {
    assert Untouched(cpu, at, Run(cpu, c, 0));
    if AtArmed(s) {
      ContAtBreakpoint(cpu, at, s, c, extra, fuel);
    } else if Advance(cpu, c).Alive? {
      if Overshoots(s, Advance(cpu, c)) {
        ContOvershoots(cpu, at, s, c, extra, fuel);
      } else {
        ContElsewhere(cpu, at, s, c, extra, fuel);
      }
    } else {
      StepEffect(cpu, at, s.base, s.bps, s.proc.regs, s.proc.mem, c.mem);
    }
  }

  /** Where `cont` is left by an overshooting step, and what it has logged. */
  ghost predicate ContOvershot(s: State, c: Undebugged, out: Session) {
    && out.Prompt?
    && var s' := out.state;
    && SameSetup(s, s') && s'.retired == s.retired + 1
    && !Tracks(s', c) && Tracks(s', Backed(c))
    && exists id: nat :: StoppedAt(s', id) && s'.log == s.log + [Stepped, Rearmed, Rearmed, Hit(id, s'.proc.regs.rip)]
  }

  lemma OvershotAfter(s: State, s2: State, c: Undebugged, id: nat, out: Session)
    requires s2.status.Running? && Mirrors(s2, c) && JustHit(s2, id) && out == Report(s2)
    requires SameSetup(s, s2) && s2.retired == s.retired + 1 && s2.log == s.log + [Stepped, Rearmed]
    ensures ContOvershot(s, c, out)
  {
    OvershotStop(s2, c, id);
    var e := Hit(id, out.state.proc.regs.rip);
    assert s2.log + [Rearmed, e] == s.log + [Stepped, Rearmed, Rearmed, e];
  }

  /** When the leading step overshoots, `cont` stops there and `rip` ends one byte short, off the
      run. */
  lemma ContOvershoots(cpu: Cpu, at: set<Addr>, s: State, c: Undebugged, extra: bool, fuel: nat)
    requires Lawful(cpu) && Tracks(s, c) && Locs(s.base, s.bps) <= at && Untouched(cpu, at, c)
    requires !AtArmed(s) && Advance(cpu, c).Alive? && Overshoots(s, Advance(cpu, c))
    ensures ContOvershot(s, Advance(cpu, c), DoCont(cpu, s, extra, fuel))
  {
    var s2, hit := StepThenCheck(cpu, at, s, c);
    var out := DoCont(cpu, s, extra, fuel);
    assert out == Report(s2);
    OvershotAfter(s, s2, Advance(cpu, c), hit.value, out);
  }

  // ---------------------------------------------------------------- exact stopping

  /** The place where `cont` ought to stop, counted in instructions of the undebugged run: the
      current state if its breakpoint is armed, else the first later state at a breakpoint. */
  ghost predicate IsFirstStop(cpu: Cpu, s: State, c: Undebugged, n: nat) {
    if AtArmed(s) then n == 0
    else n > 0 && Run(cpu, c, n).Alive? && Run(cpu, c, n).regs.rip in Locs(s.base, s.bps)
         && Clear(cpu, Locs(s.base, s.bps), Advance(cpu, c), n - 1)
  }

  /** `cont` comes back to the prompt with the process stopped after `n` instructions if and
      only if the `n`-th state is that place: no breakpoint is skipped, nothing runs past one,
      and nothing stops early. Only its leading step can be mistaken for a hit, so only that
      step must not overshoot. */
  lemma ContStopsExactly(cpu: Cpu, at: set<Addr>, s: State, c: Undebugged, extra: bool, fuel: nat, n: nat)
    requires Lawful(cpu) && Tracks(s, c) && Locs(s.base, s.bps) <= at && UntouchedRun(cpu, at, c) && n <= fuel
    requires AtArmed(s) || !Overshoots(s, Advance(cpu, c))
    ensures var out := DoCont(cpu, s, extra, fuel);
      IsFirstStop(cpu, s, c, n) <==>
        (out.Prompt? && out.state.status.Running? && out.state.retired == s.retired + n)
    ensures IsFirstStop(cpu, s, c, n) ==> Tracks(DoCont(cpu, s, extra, fuel).state, Run(cpu, c, n))
  {
    assert Untouched(cpu, at, Run(cpu, c, 0));
    var out, c' := DoCont(cpu, s, extra, fuel), Advance(cpu, c);
    if AtArmed(s) {
      ContAtBreakpoint(cpu, at, s, c, extra, fuel);
      assert Run(cpu, c, 0) == c;
    } else if c'.Dead? {
      ContQuitsOnExit(cpu, at, s, c, extra, fuel);
      DeadStays(cpu, c', n);
    } else {
      ContElsewhere(cpu, at, s, c, extra, fuel);
      FirstStopUnique(cpu, s, c, fuel, out, n);
    }
  }

  lemma {:induction false} DeadStays(cpu: Cpu, c: Undebugged, n: nat)
    requires c.Dead?
    ensures Run(cpu, c, n).Dead?
    decreases n
  {
    if n > 0 { DeadStays(cpu, Advance(cpu, c), n - 1); }
  }

  lemma RunStep(cpu: Cpu, c: Undebugged, n: nat)
    ensures Run(cpu, c, n + 1) == Run(cpu, Advance(cpu, c), n) == Advance(cpu, Run(cpu, c, n))
  {
    RunCompose(cpu, c, n, 1);
    assert Run(cpu, Run(cpu, c, n), 1) == Run(cpu, Advance(cpu, Run(cpu, c, n)), 0);
  }

  lemma PastTheEnd(cpu: Cpu, c: Undebugged, k: nat, n: nat)
    requires Advance(cpu, Run(cpu, c, k)).Dead? && k < n
    ensures Run(cpu, c, n).Dead?
  {
    RunStep(cpu, c, k);
    RunCompose(cpu, c, k + 1, n - (k + 1));
    DeadStays(cpu, Run(cpu, c, k + 1), n - (k + 1));
  }

  lemma FirstStopUnique(cpu: Cpu, s: State, c: Undebugged, fuel: nat, out: Session, n: nat)
    requires !AtArmed(s) && Advance(cpu, c).Alive? && n <= fuel
    requires ResumeMatches(cpu, s, Advance(cpu, c), s.retired + 1, fuel, out)
    ensures IsFirstStop(cpu, s, c, n) <==>
        (out.Prompt? && out.state.status.Running? && out.state.retired == s.retired + n)
    ensures IsFirstStop(cpu, s, c, n) ==> Tracks(out.state, Run(cpu, c, n))
  {
    var c' := Advance(cpu, c);
    if n > 0 {
      assert Run(cpu, c, n) == Run(cpu, c', n - 1);
      if out.Prompt? && !out.state.status.Running? {
        var k := out.state.retired - (s.retired + 1);
        if n - 1 > k { PastTheEnd(cpu, c', k, n - 1); }
      }
    }
  }
}

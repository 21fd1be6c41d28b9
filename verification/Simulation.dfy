/** Every command that lets the process run is compared here with the run of the same
    program without a debugger. */
module Simulation {
  import opened Tracee
  import opened Sdb
  import opened Instrumented

  /** The stopped process has the registers of `c`, and its memory is that of `c` with
      breakpoints planted. */
  ghost predicate Mirrors(s: State, c: Undebugged) {
    && s.proc.Live? && c.Alive?
    && s.proc.regs == c.regs
    && NoDup(s.bps)
    && Planted(s.base, s.bps, s.proc.mem, c.mem)
  }

  /** The simulation relation at the prompt: at most one breakpoint is disarmed. */
  ghost predicate Tracks(s: State, c: Undebugged) {
    s.status.Running? && Mirrors(s, c) && OneOpen(s.base, s.bps, s.proc.mem)
  }

  ghost predicate FullyArmed(s: State) {
    s.proc.Live? && AllArmed(s.base, s.bps, s.proc.mem)
  }

  /** `rip` is at a breakpoint that is armed. */
  ghost predicate AtArmed(s: State) {
    s.proc.Live? && s.proc.regs.rip in Locs(s.base, s.bps) && IsArmed(s.proc.mem, s.proc.regs.rip)
  }

  // ---------------------------------------------------------------- hypotheses on the program

  /** In state `c` the program is not at an int3 of its own, and its next instruction neither
      looks at nor writes a byte of `at`, except that one may be its first byte. */
  ghost predicate Untouched(cpu: Cpu, at: set<Addr>, c: Undebugged) {
    c.Alive? ==>
      && !IsArmed(c.mem, c.regs.rip)
      && (forall a :: a in cpu.footprint(c.regs, c.mem) && a in at ==> a == c.regs.rip)
      && (cpu.exec(c.regs, c.mem).Writes? ==> cpu.exec(c.regs, c.mem).bytes.Keys !! at)
  }

  /** The byte after an address of `at` is reached only by stepping from that address. */
  ghost predicate LandsFair(cpu: Cpu, at: set<Addr>, c: Undebugged) {
    c.Alive? && Advance(cpu, c).Alive? ==>
      forall a :: a in at && Advance(cpu, c).regs.rip == Next(a) ==> c.regs.rip == a
  }

  ghost predicate UntouchedRun(cpu: Cpu, at: set<Addr>, c: Undebugged) {
    forall k: nat :: Untouched(cpu, at, Run(cpu, c, k))
  }

  ghost predicate QuietRun(cpu: Cpu, at: set<Addr>, c: Undebugged) {
    UntouchedRun(cpu, at, c) && forall k: nat :: LandsFair(cpu, at, Run(cpu, c, k))
  }

  lemma UntouchedLater(cpu: Cpu, at: set<Addr>, c: Undebugged, n: nat)
    requires UntouchedRun(cpu, at, c)
    ensures UntouchedRun(cpu, at, Run(cpu, c, n))
  {
    forall k: nat
      ensures Untouched(cpu, at, Run(cpu, Run(cpu, c, n), k))
    {
      RunCompose(cpu, c, n, k);
    }
  }

  // ---------------------------------------------------------------- one hardware step

  /** One step of the instrumented process: an armed breakpoint traps, anything else does what
      the undebugged program does. */
  lemma StepEffect(cpu: Cpu, at: set<Addr>, base: Addr, bps: seq<Bp>, r: Regs, m: Mem, clean: Mem)
    requires Lawful(cpu) && Planted(base, bps, m, clean) && Locs(base, bps) <= at
    requires Untouched(cpu, at, Alive(r, clean))
    ensures var o, c' := HwStep(cpu, r, m), Advance(cpu, Alive(r, clean));
      if r.rip in Locs(base, bps) && IsArmed(m, r.rip) then o == Trapped(r.(rip := Next(r.rip)))
      else if c'.Dead? then o == Exited
      else
        && o.Executed? && o.regs == c'.regs
        && Planted(base, bps, o.mem, c'.mem)
        && m.Keys <= o.mem.Keys && (forall a :: a in Locs(base, bps) && a in m ==> o.mem[a] == m[a])
  {
    if !(r.rip in Locs(base, bps) && IsArmed(m, r.rip)) {
      assert !IsArmed(m, r.rip);
      assert AgreeOn(clean, m, cpu.footprint(r, clean));
      assert cpu.exec(r, m) == cpu.exec(r, clean);
    }
  }

  // ---------------------------------------------------------------- running freely

  /** None of the first `n` states is at an address of `at`, and none is after the end. */
  ghost predicate Clear(cpu: Cpu, at: set<Addr>, c: Undebugged, n: nat) {
    forall k :: 0 <= k < n ==> Run(cpu, c, k).Alive? && Run(cpu, c, k).regs.rip !in at
  }

  /** A fully armed process that runs freely stops at the first breakpoint on its path, or
      follows the undebugged run to its end. */
  ghost predicate FreeRunMatches(cpu: Cpu, base: Addr, bps: seq<Bp>, c: Undebugged, fuel: nat, h: Halt) {
    var n := h.steps;
    var d := Run(cpu, c, n);
    && d.Alive? && Clear(cpu, Locs(base, bps), c, n)
    && match h
       case AtTrap(r, m, _) =>
         && n < fuel && d.regs.rip in Locs(base, bps) && r == d.regs.(rip := Next(d.regs.rip))
         && Planted(base, bps, m, d.mem) && AllArmed(base, bps, m)
       case AtExit(_) => n < fuel && d.regs.rip !in Locs(base, bps) && Advance(cpu, d).Dead?
       case Busy(r, m, _) => n == fuel && r == d.regs && Planted(base, bps, m, d.mem) && AllArmed(base, bps, m)
  }

  function OneMore(h: Halt): Halt { h.(steps := h.steps + 1) }

  lemma FreeRunCons(cpu: Cpu, base: Addr, bps: seq<Bp>, c: Undebugged, fuel: nat, rest: Halt, h: Halt)
    requires c.Alive? && c.regs.rip !in Locs(base, bps) && fuel > 0 && h == OneMore(rest)
    requires FreeRunMatches(cpu, base, bps, Advance(cpu, c), fuel - 1, rest)
    ensures FreeRunMatches(cpu, base, bps, c, fuel, h)
  {
  }

  /** The three ways a free run is over before its first instruction. */
  lemma FreeRunNow(cpu: Cpu, base: Addr, bps: seq<Bp>, c: Undebugged, m: Mem, fuel: nat, h: Halt)
    requires c.Alive? && Planted(base, bps, m, c.mem) && AllArmed(base, bps, m)
    requires
      || (fuel == 0 && h == Busy(c.regs, m, 0))
      || (fuel > 0 && c.regs.rip in Locs(base, bps) && h == AtTrap(c.regs.(rip := Next(c.regs.rip)), m, 0))
      || (fuel > 0 && c.regs.rip !in Locs(base, bps) && Advance(cpu, c).Dead? && h == AtExit(0))
    ensures FreeRunMatches(cpu, base, bps, c, fuel, h)
  {
    assert Run(cpu, c, 0) == c;
  }

  lemma UntouchedNext(cpu: Cpu, at: set<Addr>, c: Undebugged)
    requires UntouchedRun(cpu, at, c)
    ensures Untouched(cpu, at, c) && UntouchedRun(cpu, at, Advance(cpu, c))
  {
    assert Untouched(cpu, at, Run(cpu, c, 0));
    UntouchedLater(cpu, at, c, 1);
    assert Run(cpu, c, 1) == Run(cpu, Advance(cpu, c), 0);
  }

  lemma ArmedKept(base: Addr, bps: seq<Bp>, m: Mem, m': Mem)
    requires AllArmed(base, bps, m)
    requires m.Keys <= m'.Keys && forall a :: a in Locs(base, bps) && a in m ==> m'[a] == m[a]
    ensures AllArmed(base, bps, m')
  {
  }

  /** One step of a fully armed process. */
  lemma ArmedStep(cpu: Cpu, at: set<Addr>, base: Addr, bps: seq<Bp>, r: Regs, m: Mem, clean: Mem)
    requires Lawful(cpu) && Planted(base, bps, m, clean) && AllArmed(base, bps, m) && Locs(base, bps) <= at
    requires Untouched(cpu, at, Alive(r, clean))
    ensures var o, c' := HwStep(cpu, r, m), Advance(cpu, Alive(r, clean));
      if r.rip in Locs(base, bps) then o == Trapped(r.(rip := Next(r.rip)))
      else if c'.Dead? then o == Exited
      else o.Executed? && o.regs == c'.regs && Planted(base, bps, o.mem, c'.mem) && AllArmed(base, bps, o.mem)
  {
    StepEffect(cpu, at, base, bps, r, m, clean);
    var o := HwStep(cpu, r, m);
    if r.rip in Locs(base, bps) {
      assert IsArmed(m, r.rip);
    } else if o.Executed? {
      ArmedKept(base, bps, m, o.mem);
    }
  }

  /** `RunFree`, one step at a time. */
  lemma RunFreeStep(cpu: Cpu, r: Regs, m: Mem, fuel: nat)
    requires fuel > 0
    ensures RunFree(cpu, r, m, fuel) ==
      match HwStep(cpu, r, m)
      case Trapped(r') => AtTrap(r', m, 0)
      case Exited => AtExit(0)
      case Executed(r', m') => OneMore(RunFree(cpu, r', m', fuel - 1))
  {
  }

  lemma {:induction false} FreeRunEffect(cpu: Cpu, at: set<Addr>, base: Addr, bps: seq<Bp>,
                                         r: Regs, m: Mem, clean: Mem, fuel: nat)
    requires Lawful(cpu) && Planted(base, bps, m, clean) && AllArmed(base, bps, m) && Locs(base, bps) <= at
    requires UntouchedRun(cpu, at, Alive(r, clean))
    ensures FreeRunMatches(cpu, base, bps, Alive(r, clean), fuel, RunFree(cpu, r, m, fuel))
    decreases fuel
  {
    var c, h := Alive(r, clean), RunFree(cpu, r, m, fuel);
    if fuel == 0 {
      FreeRunNow(cpu, base, bps, c, m, fuel, h);
    } else {
      UntouchedNext(cpu, at, c);
      ArmedStep(cpu, at, base, bps, r, m, clean);
      RunFreeStep(cpu, r, m, fuel);
      var o := HwStep(cpu, r, m);
      if o.Executed? {
        var rest := RunFree(cpu, o.regs, o.mem, fuel - 1);
        FreeRunEffect(cpu, at, base, bps, o.regs, o.mem, Advance(cpu, c).mem, fuel - 1);
        FreeRunCons(cpu, base, bps, c, fuel, rest, h);
      } else {
        FreeRunNow(cpu, base, bps, c, m, fuel, h);
      }
    }
  }
}

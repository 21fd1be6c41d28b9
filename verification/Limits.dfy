/** Where the hypotheses of the theorems come from: one small program, with a breakpoint where
    they all hold and with one where a single hypothesis fails. */
module Limits {
  import opened Tracee
  import opened Sdb
  import opened Instrumented
  import opened Simulation
  import opened Stepping

  const NOP: bv8 := 0x90
  const JMP: bv8 := 0xeb

  // ---------------------------------------------------------------- a processor of two instructions

  /** The target of a short jump: two bytes on, and a signed byte more. */
  function Target(rip: Addr, d: bv8): Addr {
    Plus(Plus(rip, 2), if d < 0x80 then d as int else SPACE - 0x100 + d as int)
  }

  /** A short jump, or one byte that does nothing; running off the code ends the process. */
  function Decode(r: Regs, m: Mem): Effect {
    if r.rip !in m then Exits
    else if m[r.rip] != JMP then Writes(r.(rip := Next(r.rip)), map[])
    else if Next(r.rip) !in m then Exits
    else Writes(r.(rip := Target(r.rip, m[Next(r.rip)])), map[])
  }

  /** The bytes of the instruction at `rip`. */
  function Fetched(r: Regs, m: Mem): set<Addr> {
    if r.rip in m && m[r.rip] == JMP then {r.rip, Next(r.rip)} else {r.rip}
  }

  function Decoder(): Cpu {
    Cpu((r: Regs, m: Mem) => Decode(r, m), (r: Regs, m: Mem) => Fetched(r, m))
  }

  lemma DecoderLawful()
    ensures Lawful(Decoder())
  {
    forall r: Regs, m: Mem, m': Mem | AgreeOn(m, m', Fetched(r, m))
      ensures Decode(r, m') == Decode(r, m)
    {
      assert r.rip in Fetched(r, m);
    }
  }

  // ---------------------------------------------------------------- a program

  function CodeByte(a: Addr): bv8 { if a == 0x1000 then JMP else if a == 0x1001 then 1 else NOP }

  /** A jump over the byte at 0x1002, and then nothing up to the end of the code. */
  function Code(): Mem {
    map a: Addr | 0x1000 <= a < 0x100c :: CodeByte(a)
  }

  function Entry(): Regs { Regs(0x1000, map[]) }

  function Begin(): Undebugged { Alive(Entry(), Code()) }

  /** Just launched with one breakpoint. */
  function Launch(at: Addr): State {
    State(Running, false, 0, [Bp(at, NOP)], Entry(), Live(Entry(), Code()[at := INT3]), 0, [Launched])
  }

  lemma LaunchTracks(at: Addr)
    requires 0x1002 <= at <= 0x1004
    ensures Tracks(Launch(at), Begin()) && Locs(0, Launch(at).bps) == {at} && !AtArmed(Launch(at))
    ensures IsArmed(Launch(at).proc.mem, at)
  {
    var s := Launch(at);
    assert Loc(0, s.bps[0]) == at;
    assert Locs(0, s.bps) == {at};
    assert Readable(s.proc.mem, at);
  }

  /** Past the jump: somewhere in the rest of the code, or ended. */
  ghost predicate Walking(c: Undebugged) {
    c.Alive? ==> c.mem == Code() && 0x1003 <= c.regs.rip <= 0x100c
  }

  lemma FirstStep()
    ensures var c := Advance(Decoder(), Begin()); c.Alive? && c.mem == Code() && c.regs.rip == 0x1003
  {
    assert Code() + map[] == Code();
    assert Target(0x1000, 1) == 0x1003;
  }

  lemma WalkStep(c: Undebugged)
    requires Walking(c)
    ensures Walking(Advance(Decoder(), c))
    ensures c.Alive? && Advance(Decoder(), c).Alive? ==> Advance(Decoder(), c).regs.rip == Next(c.regs.rip)
  {
    assert Code() + map[] == Code();
  }

  lemma {:induction false} Walks(c: Undebugged, n: nat)
    requires Walking(c)
    ensures Walking(Run(Decoder(), c, n))
    decreases n
  {
    if n > 0 {
      WalkStep(c);
      Walks(Advance(Decoder(), c), n - 1);
    }
  }

  /** Every state of the run is the first one or past the jump. */
  lemma RunStates(n: nat)
    ensures var c := Run(Decoder(), Begin(), n); c == Begin() || Walking(c)
  {
    if n > 0 {
      FirstStep();
      Walks(Advance(Decoder(), Begin()), n - 1);
    }
  }

  lemma StateUntouched(at: Addr, c: Undebugged)
    requires 0x1002 <= at <= 0x1004 && (c == Begin() || Walking(c))
    ensures Untouched(Decoder(), {at}, c)
  {
  }

  lemma StateFair(at: Addr, c: Undebugged)
    requires 0x1002 < at <= 0x1004 && (c == Begin() || Walking(c))
    ensures LandsFair(Decoder(), {at}, c)
  {
    if c == Begin() {
      FirstStep();
    } else {
      WalkStep(c);
    }
  }

  // ---------------------------------------------------------------- the two breakpoints

  /** With its breakpoint anywhere here the program touches no breakpoint byte; the remaining
      hypothesis holds exactly when the breakpoint is not the byte that is jumped over. */
  lemma HypothesesMet(at: Addr)
    requires 0x1002 <= at <= 0x1004
    ensures Lawful(Decoder()) && Tracks(Launch(at), Begin()) && Locs(0, Launch(at).bps) == {at}
    ensures UntouchedRun(Decoder(), {at}, Begin())
    ensures QuietRun(Decoder(), {at}, Begin()) <==> at != 0x1002
  {
    DecoderLawful();
    LaunchTracks(at);
    forall k: nat
      ensures Untouched(Decoder(), {at}, Run(Decoder(), Begin(), k))
      ensures at != 0x1002 ==> LandsFair(Decoder(), {at}, Run(Decoder(), Begin(), k))
    {
      RunStates(k);
      StateUntouched(at, Run(Decoder(), Begin(), k));
      if at != 0x1002 { StateFair(at, Run(Decoder(), Begin(), k)); }
    }
    if at == 0x1002 {
      FirstStep();
      assert !LandsFair(Decoder(), {at}, Run(Decoder(), Begin(), 0));
    }
  }

  /** A jump to just past an armed breakpoint is reported as a hit: one `si` leaves `rip` on the
      breakpoint, where the program has not been, and off the undebugged run. */
  lemma JumpPastIsMistaken()
    ensures Tracks(Launch(0x1002), Begin()) && UntouchedRun(Decoder(), {0x1002}, Begin())
    ensures Overshoots(Launch(0x1002), Advance(Decoder(), Begin()))
    ensures var out := DoSi(Decoder(), Launch(0x1002));
      && out.Prompt? && out.state.proc.Live? && out.state.proc.regs.rip == 0x1002
      && Advance(Decoder(), Begin()).Alive? && Advance(Decoder(), Begin()).regs.rip == 0x1003
      && !Tracks(out.state, Advance(Decoder(), Begin()))
  {
    HypothesesMet(0x1002);
    LaunchTracks(0x1002);
    FirstStep();
    var s, c := Launch(0x1002), Begin();
    StateUntouched(0x1002, c);
    assert Loc(s.base, s.bps[0]) == Prev(Advance(Decoder(), c).regs.rip);
    assert Overshoots(s, Advance(Decoder(), c));
    SiElsewhere(Decoder(), {0x1002}, s, c);
  }
}

/** Sequences of commands on a running process, compared with the run of the undebugged
    program: exactly when, and under which hypothesis always, the two agree. */
module Transparency {
  import opened Tracee
  import opened Sdb
  import opened Instrumented
  import opened Simulation
  import opened Stepping
  import opened Editing
  import opened Sessions

  /** The commands that neither assign registers nor launch a process. */
  predicate Plain(cmd: Command) {
    !cmd.SetReg? && !cmd.Start? && !cmd.RunProgram?
  }

  ghost predicate PlainWithin(at: set<Addr>, base: Addr, cmds: seq<Command>) {
    forall i :: 0 <= i < |cmds| ==> Plain(cmds[i]) && (cmds[i].Break? ==> Plus(base, cmds[i].addr) in at)
  }

  /** The session stands at state `d` of the undebugged program: stopped in it, running through
      it, or ended with it as the last. */
  ghost predicate At(cpu: Cpu, d: Undebugged, session: Session) {
    match session
    case Quit => true
    case Waiting(s) => Mirrors(s, d) && FullyArmed(s)
    case Prompt(s) =>
      if s.status.Running? then Tracks(s, d)
      else s.status.Loaded? && s.proc.Gone? && d.Alive? && Advance(cpu, d).Dead?
  }

  /** The session stands on the undebugged run from `c`, counted from `start` retired
      instructions. */
  ghost predicate OnRun(cpu: Cpu, c: Undebugged, start: nat, session: Session) {
    !session.Quit? ==>
      && session.state.retired >= start
      && At(cpu, Run(cpu, c, session.state.retired - start), session)
  }

  /** On the run, with every breakpoint still planted in `at`. */
  ghost predicate OnRunWithin(cpu: Cpu, at: set<Addr>, base: Addr, c: Undebugged, start: nat, session: Session) {
    && OnRun(cpu, c, start, session)
    && (session.Prompt? && session.state.status.Running? ==>
          session.state.base == base && Locs(base, session.state.bps) <= at)
  }

  /** The one thing that can go wrong: a command's single step, taken away from armed breakpoints,
      ends just past one. It can be told before the command. */
  ghost predicate Mistaken(cpu: Cpu, s: State, cmd: Command) {
    (cmd.Si? || cmd.Cont?) && s.proc.Live? && Misjudged(cpu, s, Clean(s))
  }

  ghost predicate NeverMistaken(cpu: Cpu, session: Session, cmds: seq<Command>)
    decreases |cmds|
  {
    cmds != [] && session.Prompt? ==>
      !Mistaken(cpu, session.state, cmds[0]) && NeverMistaken(cpu, Execute(cpu, session.state, cmds[0]), cmds[1..])
  }

  /** The session is on the run now and after every one of the commands. */
  ghost predicate StaysOnRun(cpu: Cpu, c: Undebugged, start: nat, session: Session, cmds: seq<Command>)
    decreases |cmds|
  {
    && OnRun(cpu, c, start, session)
    && (cmds != [] && session.Prompt? ==> StaysOnRun(cpu, c, start, Execute(cpu, session.state, cmds[0]), cmds[1..]))
  }

  // ---------------------------------------------------------------- one command

  lemma AtSame(cpu: Cpu, d: Undebugged, d': Undebugged, session: Session)
    requires At(cpu, d, session) && d == d'
    ensures At(cpu, d', session)
  {
  }

  lemma OnRunFrom(cpu: Cpu, c: Undebugged, start: nat, n: nat, session: Session)
    requires OnRun(cpu, Run(cpu, c, n), start + n, session)
    ensures OnRun(cpu, c, start, session)
  {
    if !session.Quit? {
      var r := session.state.retired;
      RunCompose(cpu, c, n, r - (start + n));
      AtSame(cpu, Run(cpu, Run(cpu, c, n), r - (start + n)), Run(cpu, c, r - start), session);
    }
  }

  lemma OnRunWithinFrom(cpu: Cpu, at: set<Addr>, base: Addr, c: Undebugged, start: nat, n: nat, mid: nat,
                        session: Session)
    requires mid == start + n && OnRunWithin(cpu, at, base, Run(cpu, c, n), mid, session)
    ensures OnRunWithin(cpu, at, base, c, start, session)
  {
    OnRunFrom(cpu, c, start, n, session);
  }

  lemma SiOnRun(cpu: Cpu, at: set<Addr>, s: State, c: Undebugged)
    requires Lawful(cpu) && Tracks(s, c) && Locs(s.base, s.bps) <= at && UntouchedRun(cpu, at, c)
    requires AtArmed(s) || !Overshoots(s, Advance(cpu, c))
    ensures OnRun(cpu, c, s.retired, DoSi(cpu, s))
    ensures DoSi(cpu, s).Prompt? ==> SameSetup(s, DoSi(cpu, s).state)
  {
    assert Untouched(cpu, at, Run(cpu, c, 0));
    if AtArmed(s) {
      SiAtBreakpoint(cpu, at, s, c);
    } else if Advance(cpu, c).Alive? {
      SiElsewhere(cpu, at, s, c);
      RunStep(cpu, c, 0);
    } else {
      SiQuitsOnExit(cpu, at, s, c);
    }
  }

  lemma ResumedOnRun(cpu: Cpu, s: State, c: Undebugged, start: nat, fuel: nat, out: Session)
    requires s.status.Running? && ResumeMatches(cpu, s, c, start, fuel, out)
    ensures OnRun(cpu, c, start, out)
    ensures out.Prompt? && out.state.status.Running? ==> SameSetup(s, out.state)
  {
  }

  lemma ContOnRun(cpu: Cpu, at: set<Addr>, s: State, c: Undebugged, extra: bool, fuel: nat)
    requires Lawful(cpu) && Tracks(s, c) && Locs(s.base, s.bps) <= at && UntouchedRun(cpu, at, c)
    requires AtArmed(s) || !Overshoots(s, Advance(cpu, c))
    ensures var out := DoCont(cpu, s, extra, fuel);
      && OnRun(cpu, c, s.retired, out)
      && (out.Prompt? && out.state.status.Running? ==> SameSetup(s, out.state))
  {
    assert Untouched(cpu, at, Run(cpu, c, 0));
    if AtArmed(s) {
      ContAtBreakpoint(cpu, at, s, c, extra, fuel);
    } else if Advance(cpu, c).Alive? {
      ContElsewhere(cpu, at, s, c, extra, fuel);
      var out := DoCont(cpu, s, extra, fuel);
      ResumedOnRun(cpu, s, Advance(cpu, c), s.retired + 1, fuel, out);
      assert Run(cpu, c, 1) == Run(cpu, Advance(cpu, c), 0);
      OnRunFrom(cpu, c, s.retired, 1, out);
    } else {
      ContQuitsOnExit(cpu, at, s, c, extra, fuel);
    }
  }

  lemma BreakOnRun(cpu: Cpu, at: set<Addr>, s: State, c: Undebugged, addr: Addr)
    requires Tracks(s, c) && Locs(s.base, s.bps) <= at && Plus(s.base, addr) in at
    ensures OnRunWithin(cpu, at, s.base, c, s.retired, DoBreak(s, addr))
  {
    assert Run(cpu, c, 0) == c;
    if exists i :: 0 <= i < |s.bps| && s.bps[i].addr == addr {
      BreakKnown(s, addr);
    } else {
      BreakEffect(s, c, addr);
      LocsSnoc(s.base, s.bps, Bp(addr, if Plus(s.base, addr) in c.mem then c.mem[Plus(s.base, addr)] else 0));
    }
  }

  lemma DeleteOnRun(cpu: Cpu, at: set<Addr>, s: State, c: Undebugged, id: nat)
    requires Tracks(s, c) && Locs(s.base, s.bps) <= at
    ensures OnRunWithin(cpu, at, s.base, c, s.retired, DoDelete(s, id))
  {
    assert Run(cpu, c, 0) == c;
    if id < |s.bps| {
      DeleteEffect(s, c, id);
      LocsWithout(s.base, s.bps, id);
    }
  }

  lemma IdleOnRun(cpu: Cpu, at: set<Addr>, s: State, c: Undebugged, out: Session)
    requires Tracks(s, c) && Locs(s.base, s.bps) <= at
    requires out == Quit || out == Prompt(s) || out == Prompt(s.(saved := s.proc.regs))
    ensures OnRunWithin(cpu, at, s.base, c, s.retired, out)
  {
    assert Run(cpu, c, 0) == c;
  }

  lemma MistakenMeans(cpu: Cpu, s: State, c: Undebugged, cmd: Command)
    requires Mirrors(s, c)
    ensures Mistaken(cpu, s, cmd) <==> (cmd.Si? || cmd.Cont?) && !AtArmed(s) && Overshoots(s, Advance(cpu, c))
  {
    CleanUnique(s, c);
  }

  lemma ExecuteSi(cpu: Cpu, s: State, cmd: Command)
    requires cmd.Si?
    ensures Execute(cpu, s, cmd) == DoSi(cpu, s)
  {
  }

  lemma ExecuteCont(cpu: Cpu, s: State, cmd: Command)
    requires cmd.Cont?
    ensures Execute(cpu, s, cmd) == DoCont(cpu, s, cmd.extra, cmd.fuel)
  {
  }

  lemma RunningOnRun(cpu: Cpu, at: set<Addr>, s: State, c: Undebugged, cmd: Command, out: Session)
    requires Lawful(cpu) && Tracks(s, c) && Locs(s.base, s.bps) <= at && UntouchedRun(cpu, at, c)
    requires (cmd.Si? || cmd.Cont?) && !Mistaken(cpu, s, cmd) && out == Execute(cpu, s, cmd)
    ensures OnRunWithin(cpu, at, s.base, c, s.retired, out)
  {
    MistakenMeans(cpu, s, c, cmd);
    if cmd.Si? {
      ExecuteSi(cpu, s, cmd);
      SiOnRun(cpu, at, s, c);
    } else {
      ExecuteCont(cpu, s, cmd);
      ContOnRun(cpu, at, s, c, cmd.extra, cmd.fuel);
    }
  }

  lemma CommandOnRun(cpu: Cpu, at: set<Addr>, s: State, c: Undebugged, cmd: Command)
    requires Lawful(cpu) && Tracks(s, c) && Locs(s.base, s.bps) <= at && UntouchedRun(cpu, at, c)
    requires Plain(cmd) && (cmd.Break? ==> Plus(s.base, cmd.addr) in at) && !Mistaken(cpu, s, cmd)
    ensures OnRunWithin(cpu, at, s.base, c, s.retired, Execute(cpu, s, cmd))
  {
    if cmd.Si? || cmd.Cont? {
      RunningOnRun(cpu, at, s, c, cmd, Execute(cpu, s, cmd));
    } else if cmd.Break? {
      BreakOnRun(cpu, at, s, c, cmd.addr);
    } else if cmd.Delete? {
      DeleteOnRun(cpu, at, s, c, cmd.id);
    } else {
      IdleOnRun(cpu, at, s, c, Execute(cpu, s, cmd));
    }
  }

  lemma OffRun(cpu: Cpu, c: Undebugged, start: nat, n: nat, s': State)
    requires s'.status.Running? && s'.retired == start + n + 1 && !Tracks(s', Advance(cpu, Run(cpu, c, n)))
    ensures !OnRun(cpu, c, start, Prompt(s'))
  {
    RunStep(cpu, c, n);
  }

  lemma SiLeaves(cpu: Cpu, at: set<Addr>, s: State, c: Undebugged, start: nat, n: nat)
    requires Lawful(cpu) && Tracks(s, Run(cpu, c, n)) && Locs(s.base, s.bps) <= at
    requires Untouched(cpu, at, Run(cpu, c, n)) && s.retired == start + n
    requires !AtArmed(s) && Overshoots(s, Advance(cpu, Run(cpu, c, n)))
    ensures !OnRun(cpu, c, start, DoSi(cpu, s))
  {
    SiElsewhere(cpu, at, s, Run(cpu, c, n));
    OffRun(cpu, c, start, n, DoSi(cpu, s).state);
  }

  lemma ContLeaves(cpu: Cpu, at: set<Addr>, s: State, c: Undebugged, start: nat, n: nat, extra: bool, fuel: nat)
    requires Lawful(cpu) && Tracks(s, Run(cpu, c, n)) && Locs(s.base, s.bps) <= at
    requires Untouched(cpu, at, Run(cpu, c, n)) && s.retired == start + n
    requires !AtArmed(s) && Overshoots(s, Advance(cpu, Run(cpu, c, n)))
    ensures !OnRun(cpu, c, start, DoCont(cpu, s, extra, fuel))
  {
    ContOvershoots(cpu, at, s, Run(cpu, c, n), extra, fuel);
    OffRun(cpu, c, start, n, DoCont(cpu, s, extra, fuel).state);
  }

  /** A mistaken stop is off the run. */
  lemma MistakenLeaves(cpu: Cpu, at: set<Addr>, s: State, c: Undebugged, start: nat, n: nat, cmd: Command, out: Session)
    requires Lawful(cpu) && Tracks(s, Run(cpu, c, n)) && Locs(s.base, s.bps) <= at
    requires Untouched(cpu, at, Run(cpu, c, n)) && s.retired == start + n && Mistaken(cpu, s, cmd)
    requires out == Execute(cpu, s, cmd)
    ensures !OnRun(cpu, c, start, out)
  {
    MistakenMeans(cpu, s, Run(cpu, c, n), cmd);
    if cmd.Si? {
      ExecuteSi(cpu, s, cmd);
      SiLeaves(cpu, at, s, c, start, n);
    } else {
      ExecuteCont(cpu, s, cmd);
      ContLeaves(cpu, at, s, c, start, n, cmd.extra, cmd.fuel);
    }
  }

  /** One command of a session on the run: it stays on it exactly when it is not mistaken. */
  lemma CommandStays(cpu: Cpu, at: set<Addr>, c: Undebugged, start: nat, s: State, cmd: Command)
    requires Lawful(cpu) && UntouchedRun(cpu, at, c) && s.status.Running?
    requires OnRunWithin(cpu, at, s.base, c, start, Prompt(s))
    requires Plain(cmd) && (cmd.Break? ==> Plus(s.base, cmd.addr) in at)
    ensures Mistaken(cpu, s, cmd) ==> !OnRun(cpu, c, start, Execute(cpu, s, cmd))
    ensures !Mistaken(cpu, s, cmd) ==> OnRunWithin(cpu, at, s.base, c, start, Execute(cpu, s, cmd))
  {
    var n := s.retired - start;
    if Mistaken(cpu, s, cmd) {
      assert Untouched(cpu, at, Run(cpu, c, n));
      MistakenLeaves(cpu, at, s, c, start, n, cmd, Execute(cpu, s, cmd));
    } else {
      UntouchedLater(cpu, at, c, n);
      CommandOnRun(cpu, at, s, Run(cpu, c, n), cmd);
      OnRunWithinFrom(cpu, at, s.base, c, start, n, s.retired, Execute(cpu, s, cmd));
    }
  }

  /** Once the process has exited, only `start` and `run` change anything. */
  lemma EndedStays(cpu: Cpu, s: State, cmd: Command)
    requires s.status.Loaded? && s.proc.Gone? && Plain(cmd)
    ensures Execute(cpu, s, cmd) == Prompt(s) || Execute(cpu, s, cmd) == Quit
  {
  }

  // ---------------------------------------------------------------- sequences of commands

  lemma StaysNow(cpu: Cpu, c: Undebugged, start: nat, session: Session, cmds: seq<Command>)
    requires StaysOnRun(cpu, c, start, session, cmds)
    ensures OnRun(cpu, c, start, session)
  {
  }

  lemma {:induction false} StaysIff(cpu: Cpu, at: set<Addr>, base: Addr, c: Undebugged, start: nat,
                                    session: Session, cmds: seq<Command>)
    requires Lawful(cpu) && UntouchedRun(cpu, at, c) && OnRunWithin(cpu, at, base, c, start, session)
    requires PlainWithin(at, base, cmds)
    ensures StaysOnRun(cpu, c, start, session, cmds) <==> NeverMistaken(cpu, session, cmds)
    decreases |cmds|
  {
    if cmds != [] && session.Prompt? {
      var s, out := session.state, Execute(cpu, session.state, cmds[0]);
      if s.status.Running? {
        CommandStays(cpu, at, c, start, s, cmds[0]);
      } else {
        EndedStays(cpu, s, cmds[0]);
      }
      if OnRun(cpu, c, start, out) {
        StaysIff(cpu, at, base, c, start, out, cmds[1..]);
      } else if StaysOnRun(cpu, c, start, out, cmds[1..]) {
        StaysNow(cpu, c, start, out, cmds[1..]);
      }
    }
  }

  /** Exact transparency: a session of break, delete, cont, si and reading commands, in any order,
      stands on the run of the undebugged program at every prompt if and only if no command's
      single step overshoots. The program must leave the bytes at the breakpoints alone. */
  lemma TransparentExactly(cpu: Cpu, at: set<Addr>, s: State, c: Undebugged, cmds: seq<Command>)
    requires Lawful(cpu) && Tracks(s, c) && Locs(s.base, s.bps) <= at && UntouchedRun(cpu, at, c)
    requires PlainWithin(at, s.base, cmds)
    ensures StaysOnRun(cpu, c, s.retired, Prompt(s), cmds) <==> NeverMistaken(cpu, Prompt(s), cmds)
  {
    assert Run(cpu, c, 0) == c;
    StaysIff(cpu, at, s.base, c, s.retired, Prompt(s), cmds);
  }

  lemma FairNotMistaken(cpu: Cpu, at: set<Addr>, s: State, c: Undebugged, n: nat, cmd: Command)
    requires Tracks(s, Run(cpu, c, n)) && Locs(s.base, s.bps) <= at && QuietRun(cpu, at, c)
    ensures !Mistaken(cpu, s, cmd)
  {
    CleanUnique(s, Run(cpu, c, n));
    if !AtArmed(s) { FairNeverOvershoots(cpu, at, s, Run(cpu, c, n)); }
  }

  lemma {:induction false} FairStays(cpu: Cpu, at: set<Addr>, base: Addr, c: Undebugged, start: nat,
                                     session: Session, cmds: seq<Command>)
    requires Lawful(cpu) && QuietRun(cpu, at, c) && OnRunWithin(cpu, at, base, c, start, session)
    requires PlainWithin(at, base, cmds)
    ensures NeverMistaken(cpu, session, cmds)
    decreases |cmds|
  {
    if cmds != [] && session.Prompt? {
      var s, out := session.state, Execute(cpu, session.state, cmds[0]);
      if s.status.Running? {
        FairNotMistaken(cpu, at, s, c, s.retired - start, cmds[0]);
        CommandStays(cpu, at, c, start, s, cmds[0]);
      } else {
        EndedStays(cpu, s, cmds[0]);
      }
      FairStays(cpu, at, base, c, start, out, cmds[1..]);
    }
  }

  lemma {:induction false} StaysEnds(cpu: Cpu, c: Undebugged, start: nat, session: Session, cmds: seq<Command>)
    requires StaysOnRun(cpu, c, start, session, cmds)
    ensures OnRun(cpu, c, start, ExecuteAll(cpu, session, cmds))
    decreases |cmds|
  {
    if cmds != [] && session.Prompt? {
      StaysEnds(cpu, c, start, Execute(cpu, session.state, cmds[0]), cmds[1..]);
    }
  }

  /** Transparency: when the program also arrives just after a breakpoint only from it, every such
      session stands on its run, now and at every prompt on the way. */
  lemma Transparent(cpu: Cpu, at: set<Addr>, s: State, c: Undebugged, cmds: seq<Command>)
    requires Lawful(cpu) && Tracks(s, c) && Locs(s.base, s.bps) <= at && QuietRun(cpu, at, c)
    requires PlainWithin(at, s.base, cmds)
    ensures StaysOnRun(cpu, c, s.retired, Prompt(s), cmds)
    ensures OnRun(cpu, c, s.retired, ExecuteAll(cpu, Prompt(s), cmds))
  {
    assert Run(cpu, c, 0) == c;
    FairStays(cpu, at, s.base, c, s.retired, Prompt(s), cmds);
    StaysIff(cpu, at, s.base, c, s.retired, Prompt(s), cmds);
    StaysEnds(cpu, c, s.retired, Prompt(s), cmds);
  }

  lemma {:induction false} StaysPrefix(cpu: Cpu, c: Undebugged, start: nat,
                                       session: Session, cmds: seq<Command>, i: nat)
    requires StaysOnRun(cpu, c, start, session, cmds) && i <= |cmds|
    ensures StaysOnRun(cpu, c, start, session, cmds[..i])
    decreases |cmds|
  {
    if i > 0 && session.Prompt? {
      assert cmds[..i][0] == cmds[0] && cmds[..i][1..] == cmds[1..][..i - 1];
      StaysPrefix(cpu, c, start, Execute(cpu, session.state, cmds[0]), cmds[1..], i - 1);
    }
  }

  /** Progress: a session that stays on the run only moves forward along it. At an earlier moment
      it stood at an index of the run, and at the end it stands at the same one or a later one. */
  lemma NeverBack(cpu: Cpu, c: Undebugged, start: nat, session: Session, cmds: seq<Command>, i: nat)
    requires StaysOnRun(cpu, c, start, session, cmds) && i <= |cmds|
    requires !ExecuteAll(cpu, session, cmds).Quit?
    ensures var mid, end := ExecuteAll(cpu, session, cmds[..i]), ExecuteAll(cpu, session, cmds);
      && OnRun(cpu, c, start, mid) && OnRun(cpu, c, start, end)
      && !mid.Quit? && 0 <= mid.state.retired - start <= end.state.retired - start
  {
    StaysPrefix(cpu, c, start, session, cmds, i);
    StaysEnds(cpu, c, start, session, cmds[..i]);
    StaysEnds(cpu, c, start, session, cmds);
    ExecuteSplit(cpu, session, cmds, i);
    SessionRetires(cpu, ExecuteAll(cpu, session, cmds[..i]), cmds[i..]);
  }

  // ---------------------------------------------------------------- run

  /** `run` from a loaded program is a start and then a `cont`: it stops at the first breakpoint
      of the new run, the entry point included, and nowhere else. As with `cont`, only the
      leading step must not overshoot. */
  lemma RunStopsExactly(cpu: Cpu, at: set<Addr>, s: State, image: Image, fuel: nat, n: nat)
    requires Lawful(cpu) && s.status.Loaded? && NoDup(s.bps) && DoStart(s, image).Prompt? && n <= fuel
    requires Locs(DoStart(s, image).state.base, s.bps) <= at
    requires UntouchedRun(cpu, at, Alive(image.regs, image.mem))
    requires var s1 := DoStart(s, image).state;
      AtArmed(s1) || !Overshoots(s1, Advance(cpu, Alive(image.regs, image.mem)))
    ensures var out, c := DoRun(cpu, s, false, image, fuel), Alive(image.regs, image.mem);
      && (IsFirstStop(cpu, DoStart(s, image).state, c, n) <==>
            (out.Prompt? && out.state.status.Running? && out.state.retired == s.retired + n))
      && (IsFirstStop(cpu, DoStart(s, image).state, c, n) ==> Tracks(out.state, Run(cpu, c, n)))
  {
    StartEffect(s, image);
    var s1 := DoStart(s, image).state;
    SameAddresses(s1.base, s.bps, s1.bps);
    ContStopsExactly(cpu, at, s1, Alive(image.regs, image.mem), false, fuel, n);
  }
}

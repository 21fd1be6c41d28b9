/** Whole debugging sessions: what holds after every sequence of commands. */
module Sessions {
  import opened Tracee
  import opened Sdb
  import opened Instrumented
  import opened Simulation
  import opened Stepping
  import opened Editing

  // ---------------------------------------------------------------- the program underneath

  /** Memory with every breakpoint byte replaced by the byte saved for it. */
  function Uninstrumented(base: Addr, bps: seq<Bp>, m: Mem): Mem {
    map a | a in m :: match Find(bps, base, a) case None => m[a] case Some(i) => bps[i].ovalue
  }

  /** The undebugged program a stopped process stands for. */
  function Clean(s: State): Undebugged
    requires s.proc.Live?
  {
    Alive(s.proc.regs, Uninstrumented(s.base, s.bps, s.proc.mem))
  }

  /** A process mirrors one undebugged state only. */
  lemma CleanUnique(s: State, c: Undebugged)
    requires Mirrors(s, c)
    ensures Clean(s) == c
  {
    var m := Uninstrumented(s.base, s.bps, s.proc.mem);
    forall a | a in m
      ensures a in c.mem && m[a] == c.mem[a]
    {
      var f := Find(s.bps, s.base, a);
      if f.None? { assert a !in Locs(s.base, s.bps); }
    }
    assert m == c.mem;
  }

  /** The history tells what is disarmed: after a hit, nothing but that breakpoint; after
      anything else, nothing. */
  ghost predicate LogTells(s: State) {
    s.proc.Live? && if s.log != [] && s.log[|s.log| - 1].Hit? then
      forall i :: 0 <= i < |s.bps| && !IsArmed(s.proc.mem, Loc(s.base, s.bps[i])) ==>
        Loc(s.base, s.bps[i]) == s.log[|s.log| - 1].at
    else FullyArmed(s)
  }

  // ---------------------------------------------------------------- the reference program

  /** A step away from armed breakpoints that will be taken for a hit. */
  ghost predicate Misjudged(cpu: Cpu, s: State, ref: Undebugged) {
    !AtArmed(s) && Overshoots(s, Advance(cpu, ref))
  }

  /** The undebugged program after a command that let the process run: as many instructions on as
      were retired, one more when the process ended, and with `rip` one byte back exactly when
      the leading step was misjudged. */
  ghost function Followed(cpu: Cpu, s: State, ref: Undebugged, out: Session): Undebugged {
    if out.Quit? || out.state.retired < s.retired then Dead
    else
      var n := out.state.retired - s.retired;
      if out.state.proc.Gone? then Run(cpu, ref, n + 1)
      else if Misjudged(cpu, s, ref) then Backed(Run(cpu, ref, n))
      else Run(cpu, ref, n)
  }

  /** The program a user means to be debugging, command by command. It knows the images that are
      launched, the registers that are assigned and the instructions that are executed, and
      nothing of saved bytes. */
  ghost function Reference(cpu: Cpu, s: State, ref: Undebugged, cmd: Command): Undebugged {
    match cmd
    case Start(image) => if s.status.Loaded? then Alive(image.regs, image.mem) else ref
    case SetReg(name, value) => if s.status.Running? then Assigned(ref, name, value) else ref
    case Si => Followed(cpu, s, ref, DoSi(cpu, s))
    case Cont(extra, fuel) => Followed(cpu, s, ref, DoCont(cpu, s, extra, fuel))
    case RunProgram(extra, image, fuel) => RunReference(cpu, s, ref, extra, image, fuel)
    case Load(_) => ref
    case Break(_) => ref
    case Delete(_) => ref
    case GetReg(_) => ref
    case ReadOnly => ref
    case Exit => ref
  }

  ghost function RunReference(cpu: Cpu, s: State, ref: Undebugged, extra: bool, image: Image, fuel: nat): Undebugged {
    if extra || s.status.NotLoaded? then ref
    else if s.status.Running? then Followed(cpu, s, ref, DoCont(cpu, s, false, fuel))
    else if DoStart(s, image).Quit? then Dead
    else
      var s1 := DoStart(s, image).state;
      Followed(cpu, s1, Alive(image.regs, image.mem), DoCont(cpu, s1, false, fuel))
  }

  ghost function ReferenceAll(cpu: Cpu, session: Session, ref: Undebugged, cmds: seq<Command>): Undebugged
    decreases |cmds|
  {
    if cmds == [] || !session.Prompt? then ref
    else
      var s := session.state;
      ReferenceAll(cpu, Execute(cpu, s, cmds[0]), Reference(cpu, s, ref, cmds[0]), cmds[1..])
  }

  // ---------------------------------------------------------------- the invariant of all sessions

  /** At the prompt: a process is the reference program with breakpoints planted, the history
      tells which one is disarmed, and there is no process exactly when that program is dead. */
  ghost predicate Stands(s: State, ref: Undebugged) {
    && NoDup(s.bps)
    && (s.status.Running? <==> s.proc.Live?)
    && (s.proc.Live? ==> Tracks(s, ref) && LogTells(s))
    && (s.proc.Gone? ==> ref.Dead?)
  }

  ghost predicate Follows(session: Session, ref: Undebugged) {
    match session
    case Quit => true
    case Waiting(s) => Mirrors(s, ref) && FullyArmed(s)
    case Prompt(s) => Stands(s, ref)
  }

  /** The program leaves the breakpoints planted in `s` alone from `ref` on. */
  ghost predicate RunsUntouched(cpu: Cpu, s: State, ref: Undebugged) {
    s.proc.Live? ==> UntouchedRun(cpu, Locs(s.base, s.bps), ref)
  }

  /** What a command asks of the reference program: when it lets the process run, the program
      leaves the bytes at the breakpoints then planted alone. */
  ghost predicate Leaves(cpu: Cpu, s: State, ref: Undebugged, cmd: Command) {
    match cmd
    case Si => s.proc.Live? ==> Untouched(cpu, Locs(s.base, s.bps), ref)
    case Cont(_, _) => RunsUntouched(cpu, s, ref)
    case RunProgram(extra, image, _) =>
      && (!extra && s.status.Running? ==> RunsUntouched(cpu, s, ref))
      && (!extra && s.status.Loaded? && DoStart(s, image).Prompt? ==>
            RunsUntouched(cpu, DoStart(s, image).state, Alive(image.regs, image.mem)))
    case _ => true
  }

  ghost predicate LeavesAll(cpu: Cpu, session: Session, ref: Undebugged, cmds: seq<Command>)
    decreases |cmds|
  {
    cmds != [] && session.Prompt? ==>
      var s := session.state;
      && Leaves(cpu, s, ref, cmds[0])
      && LeavesAll(cpu, Execute(cpu, s, cmds[0]), Reference(cpu, s, ref, cmds[0]), cmds[1..])
  }

  // ---------------------------------------------------------------- what ends the debugger

  /** The leading step of `si` or `cont` ends the process. */
  ghost predicate StepEnds(cpu: Cpu, s: State, ref: Undebugged) {
    !AtArmed(s) && Advance(cpu, ref).Dead?
  }

  ghost predicate CannotPlant(s: State, image: Image) {
    !AllReadable(if s.dynamic then image.base else 0, s.bps, image.mem)
  }

  /** A new breakpoint where the program has no readable word. */
  ghost predicate CannotBreak(s: State, ref: Undebugged, addr: Addr) {
    && (forall i :: 0 <= i < |s.bps| ==> s.bps[i].addr != addr)
    && ref.Alive? && !Readable(ref.mem, Plus(s.base, addr))
  }

  /** `run` from a loaded program cannot plant, or its first step ends the new process. */
  ghost predicate RunEnds(cpu: Cpu, s: State, image: Image) {
    || CannotPlant(s, image)
    || (DoStart(s, image).Prompt? && StepEnds(cpu, DoStart(s, image).state, Alive(image.regs, image.mem)))
  }

  /** The commands the debugger does not survive. */
  ghost predicate Fatal(cpu: Cpu, s: State, ref: Undebugged, cmd: Command) {
    match cmd
    case Exit => true
    case Break(addr) => s.status.Running? && CannotBreak(s, ref, addr)
    case Si => s.proc.Gone? || StepEnds(cpu, s, ref)
    case Cont(extra, _) => if s.proc.Gone? then extra else StepEnds(cpu, s, ref)
    case Start(image) => s.status.Loaded? && CannotPlant(s, image)
    case RunProgram(extra, image, _) =>
      !extra && ((s.status.Running? && StepEnds(cpu, s, ref)) || (s.status.Loaded? && RunEnds(cpu, s, image)))
    case Load(_) => false
    case Delete(_) => false
    case SetReg(_, _) => false
    case GetReg(_) => false
    case ReadOnly => false
  }

  ghost predicate FatalSomewhere(cpu: Cpu, session: Session, ref: Undebugged, cmds: seq<Command>)
    decreases |cmds|
  {
    cmds != [] && session.Prompt? &&
      var s := session.state;
      || Fatal(cpu, s, ref, cmds[0])
      || FatalSomewhere(cpu, Execute(cpu, s, cmds[0]), Reference(cpu, s, ref, cmds[0]), cmds[1..])
  }

  // ---------------------------------------------------------------- stops

  lemma StoppedTells(s: State, id: nat)
    requires StoppedAt(s, id)
    ensures LogTells(s)
  {
  }

  lemma KeptTells(s: State, s': State)
    requires LogTells(s) && KeepsArmed(s, s') && s'.log == s.log
    ensures LogTells(s')
  {
  }

  lemma HitStands(s: State, c: Undebugged)
    requires Tracks(s, c) && exists id: nat :: StoppedAt(s, id)
    ensures Stands(s, c)
  {
    var id: nat :| StoppedAt(s, id);
    StoppedTells(s, id);
  }

  lemma MissStands(s: State, c: Undebugged)
    requires Tracks(s, c) && FullyArmed(s)
    ensures Stands(s, c)
  {
  }

  lemma FollowedBy(cpu: Cpu, s: State, ref: Undebugged, out: Session, n: nat)
    requires !out.Quit? && out.state.proc.Live? && out.state.retired == s.retired + n
    ensures Followed(cpu, s, ref, out) == if Misjudged(cpu, s, ref) then Backed(Run(cpu, ref, n)) else Run(cpu, ref, n)
  {
  }

  // ---------------------------------------------------------------- si

  lemma SiHitFollows(cpu: Cpu, s: State, ref: Undebugged, out: Session)
    requires Lawful(cpu) && Tracks(s, ref) && Untouched(cpu, Locs(s.base, s.bps), ref)
    requires AtArmed(s) && out == DoSi(cpu, s)
    ensures out.Prompt? && Stands(out.state, Followed(cpu, s, ref, out))
  {
    SiAtBreakpoint(cpu, Locs(s.base, s.bps), s, ref);
    HitStands(out.state, ref);
    FollowedBy(cpu, s, ref, out, 0);
  }

  lemma SiStepFollows(cpu: Cpu, s: State, ref: Undebugged, out: Session)
    requires Lawful(cpu) && Tracks(s, ref) && Untouched(cpu, Locs(s.base, s.bps), ref)
    requires !AtArmed(s) && Advance(cpu, ref).Alive? && out == DoSi(cpu, s)
    ensures out.Prompt? && Stands(out.state, Followed(cpu, s, ref, out))
  {
    SiElsewhere(cpu, Locs(s.base, s.bps), s, ref);
    RunStep(cpu, ref, 0);
    FollowedBy(cpu, s, ref, out, 1);
    if Misjudged(cpu, s, ref) {
      HitStands(out.state, Backed(Advance(cpu, ref)));
    } else {
      MissStands(out.state, Advance(cpu, ref));
    }
  }

  lemma SiFollows(cpu: Cpu, s: State, ref: Undebugged)
    requires Lawful(cpu) && Stands(s, ref) && Leaves(cpu, s, ref, Si)
    ensures Follows(DoSi(cpu, s), Followed(cpu, s, ref, DoSi(cpu, s)))
    ensures DoSi(cpu, s) == Quit <==> s.proc.Gone? || StepEnds(cpu, s, ref)
  {
    if s.proc.Live? {
      SiQuitsOnExit(cpu, Locs(s.base, s.bps), s, ref);
      if AtArmed(s) {
        SiHitFollows(cpu, s, ref, DoSi(cpu, s));
      } else if Advance(cpu, ref).Alive? {
        SiStepFollows(cpu, s, ref, DoSi(cpu, s));
      }
    }
  }

  // ---------------------------------------------------------------- cont

  lemma ContHitFollows(cpu: Cpu, s: State, ref: Undebugged, extra: bool, fuel: nat, out: Session)
    requires Lawful(cpu) && Tracks(s, ref) && Untouched(cpu, Locs(s.base, s.bps), ref)
    requires AtArmed(s) && out == DoCont(cpu, s, extra, fuel)
    ensures out.Prompt? && Stands(out.state, Followed(cpu, s, ref, out))
  {
    ContAtBreakpoint(cpu, Locs(s.base, s.bps), s, ref, extra, fuel);
    HitStands(out.state, ref);
    FollowedBy(cpu, s, ref, out, 0);
  }

  lemma ContOverFollows(cpu: Cpu, s: State, ref: Undebugged, extra: bool, fuel: nat, out: Session)
    requires Lawful(cpu) && Tracks(s, ref) && Untouched(cpu, Locs(s.base, s.bps), ref)
    requires Misjudged(cpu, s, ref) && out == DoCont(cpu, s, extra, fuel)
    ensures out.Prompt? && Stands(out.state, Followed(cpu, s, ref, out))
  {
    ContOvershoots(cpu, Locs(s.base, s.bps), s, ref, extra, fuel);
    HitStands(out.state, Backed(Advance(cpu, ref)));
    RunStep(cpu, ref, 0);
    FollowedBy(cpu, s, ref, out, 1);
  }

  lemma WaitingFollows(cpu: Cpu, s: State, ref: Undebugged, fuel: nat, out: Session)
    requires !Misjudged(cpu, s, ref) && out.Waiting?
    requires ResumeMatches(cpu, s, Advance(cpu, ref), s.retired + 1, fuel, out)
    ensures Follows(out, Followed(cpu, s, ref, out))
  {
    FollowedBy(cpu, s, ref, out, fuel + 1);
  }

  lemma StoppedFollows(cpu: Cpu, s: State, ref: Undebugged, fuel: nat, out: Session)
    requires !Misjudged(cpu, s, ref) && out.Prompt? && out.state.status.Running?
    requires ResumeMatches(cpu, s, Advance(cpu, ref), s.retired + 1, fuel, out)
    ensures Stands(out.state, Followed(cpu, s, ref, out))
  {
    var n := out.state.retired - (s.retired + 1);
    FollowedBy(cpu, s, ref, out, n + 1);
    HitStands(out.state, Run(cpu, Advance(cpu, ref), n));
  }

  lemma EndedFollows(cpu: Cpu, s: State, ref: Undebugged, fuel: nat, out: Session)
    requires NoDup(s.bps) && out.Prompt? && !out.state.status.Running?
    requires ResumeMatches(cpu, s, Advance(cpu, ref), s.retired + 1, fuel, out)
    ensures Stands(out.state, Followed(cpu, s, ref, out))
  {
    RunStep(cpu, Advance(cpu, ref), out.state.retired - (s.retired + 1));
  }

  /** After a resumption the reference program is where `ResumeMatches` puts it. */
  lemma ResumedFollows(cpu: Cpu, s: State, ref: Undebugged, fuel: nat, out: Session)
    requires NoDup(s.bps) && !Misjudged(cpu, s, ref)
    requires ResumeMatches(cpu, s, Advance(cpu, ref), s.retired + 1, fuel, out)
    ensures !out.Quit? && Follows(out, Followed(cpu, s, ref, out))
  {
    if out.Waiting? {
      WaitingFollows(cpu, s, ref, fuel, out);
    } else if out.state.status.Running? {
      StoppedFollows(cpu, s, ref, fuel, out);
    } else {
      EndedFollows(cpu, s, ref, fuel, out);
    }
  }

  lemma ContRunFollows(cpu: Cpu, s: State, ref: Undebugged, extra: bool, fuel: nat, out: Session)
    requires Lawful(cpu) && Tracks(s, ref) && UntouchedRun(cpu, Locs(s.base, s.bps), ref)
    requires !AtArmed(s) && Advance(cpu, ref).Alive? && !Misjudged(cpu, s, ref) && out == DoCont(cpu, s, extra, fuel)
    ensures !out.Quit? && Follows(out, Followed(cpu, s, ref, out))
  {
    ContElsewhere(cpu, Locs(s.base, s.bps), s, ref, extra, fuel);
    ResumedFollows(cpu, s, ref, fuel, out);
  }

  lemma ContFollows(cpu: Cpu, s: State, ref: Undebugged, extra: bool, fuel: nat)
    requires Lawful(cpu) && Tracks(s, ref) && UntouchedRun(cpu, Locs(s.base, s.bps), ref)
    ensures var out := DoCont(cpu, s, extra, fuel);
      && Follows(out, Followed(cpu, s, ref, out))
      && (out == Quit <==> StepEnds(cpu, s, ref))
  {
    var out := DoCont(cpu, s, extra, fuel);
    ContQuitsOnExit(cpu, Locs(s.base, s.bps), s, ref, extra, fuel);
    assert Untouched(cpu, Locs(s.base, s.bps), Run(cpu, ref, 0));
    if AtArmed(s) {
      ContHitFollows(cpu, s, ref, extra, fuel, out);
    } else if Misjudged(cpu, s, ref) {
      ContOverFollows(cpu, s, ref, extra, fuel, out);
    } else if Advance(cpu, ref).Alive? {
      ContRunFollows(cpu, s, ref, extra, fuel, out);
    }
  }

  // ---------------------------------------------------------------- the other commands

  lemma BreakFollows(s: State, ref: Undebugged, addr: Addr)
    requires Stands(s, ref)
    ensures Follows(DoBreak(s, addr), ref)
    ensures DoBreak(s, addr) == Quit <==> s.status.Running? && CannotBreak(s, ref, addr)
  {
    if s.status.Running? {
      if exists i :: 0 <= i < |s.bps| && s.bps[i].addr == addr {
        BreakKnown(s, addr);
      } else {
        BreakEffect(s, ref, addr);
        if Readable(ref.mem, Plus(s.base, addr)) { KeptTells(s, DoBreak(s, addr).state); }
      }
    }
  }

  lemma DeleteFollows(s: State, ref: Undebugged, id: nat)
    requires Stands(s, ref)
    ensures DoDelete(s, id).Prompt? && Stands(DoDelete(s, id).state, ref)
  {
    if s.status.Running? && id < |s.bps| {
      DeleteEffect(s, ref, id);
      KeptTells(s, DoDelete(s, id).state);
    }
  }

  lemma SetFollows(s: State, ref: Undebugged, name: string, value: Word)
    requires Stands(s, ref)
    ensures DoSetReg(s, name, value).Prompt?
    ensures Stands(DoSetReg(s, name, value).state, if s.status.Running? then Assigned(ref, name, value) else ref)
  {
    if s.status.Running? {
      SetEffect(s, ref, name, value);
      KeptTells(s, DoSetReg(s, name, value).state);
    }
  }

  lemma GetFollows(s: State, ref: Undebugged)
    requires Stands(s, ref)
    ensures DoGetReg(s).Prompt? && Stands(DoGetReg(s).state, ref)
  {
  }

  lemma StartFollows(s: State, ref: Undebugged, image: Image)
    requires Stands(s, ref)
    ensures Follows(DoStart(s, image), if s.status.Loaded? then Alive(image.regs, image.mem) else ref)
    ensures DoStart(s, image) == Quit <==> s.status.Loaded? && CannotPlant(s, image)
  {
    if s.status.Loaded? {
      StartEffect(s, image);
      if !CannotPlant(s, image) { MissStands(DoStart(s, image).state, Alive(image.regs, image.mem)); }
    }
  }

  /** `run` from a loaded program is a start and then a `cont`. */
  lemma RunIsStartThenCont(cpu: Cpu, s: State, image: Image, fuel: nat)
    requires s.status.Loaded?
    ensures DoStart(s, image).Quit? ==> DoRun(cpu, s, false, image, fuel) == Quit
    ensures DoStart(s, image).Prompt? ==>
      DoRun(cpu, s, false, image, fuel) == DoCont(cpu, DoStart(s, image).state, false, fuel)
  {
  }

  lemma RunLoadedFollows(cpu: Cpu, s: State, ref: Undebugged, image: Image, fuel: nat)
    requires Lawful(cpu) && Stands(s, ref) && s.status.Loaded? && Leaves(cpu, s, ref, RunProgram(false, image, fuel))
    ensures var out := DoRun(cpu, s, false, image, fuel);
      && Follows(out, RunReference(cpu, s, ref, false, image, fuel))
      && (out == Quit <==> Fatal(cpu, s, ref, RunProgram(false, image, fuel)))
  {
    StartFollows(s, ref, image);
    RunIsStartThenCont(cpu, s, image, fuel);
    if !CannotPlant(s, image) { ContFollows(cpu, DoStart(s, image).state, Alive(image.regs, image.mem), false, fuel); }
  }

  lemma RunFollows(cpu: Cpu, s: State, ref: Undebugged, extra: bool, image: Image, fuel: nat)
    requires Lawful(cpu) && Stands(s, ref) && Leaves(cpu, s, ref, RunProgram(extra, image, fuel))
    ensures var out := DoRun(cpu, s, extra, image, fuel);
      && Follows(out, RunReference(cpu, s, ref, extra, image, fuel))
      && (out == Quit <==> Fatal(cpu, s, ref, RunProgram(extra, image, fuel)))
  {
    if !extra && s.status.Running? {
      ContFollows(cpu, s, ref, false, fuel);
    } else if !extra && s.status.Loaded? {
      RunLoadedFollows(cpu, s, ref, image, fuel);
    }
  }

  // ---------------------------------------------------------------- sessions

  /** One command: the session keeps following the reference program, and the debugger goes
      exactly when the command is fatal. */
  lemma CommandFollows(cpu: Cpu, s: State, ref: Undebugged, cmd: Command)
    requires Lawful(cpu) && Stands(s, ref) && Leaves(cpu, s, ref, cmd)
    ensures Follows(Execute(cpu, s, cmd), Reference(cpu, s, ref, cmd))
    ensures Execute(cpu, s, cmd) == Quit <==> Fatal(cpu, s, ref, cmd)
  {
    match cmd
    case Si => SiFollows(cpu, s, ref);
    case Cont(extra, fuel) =>
      if s.proc.Live? {
        ContFollows(cpu, s, ref, extra, fuel);
      } else {
        DeadStays(cpu, ref, 1);
      }
    case Start(image) => StartFollows(s, ref, image);
    case RunProgram(extra, image, fuel) => RunFollows(cpu, s, ref, extra, image, fuel);
    case Break(addr) => BreakFollows(s, ref, addr);
    case Delete(id) => DeleteFollows(s, ref, id);
    case SetReg(name, value) => SetFollows(s, ref, name, value);
    case GetReg(_) => GetFollows(s, ref);
    case Load(_) =>
    case ReadOnly =>
    case Exit =>
  }

  /** The memory invariant over all sessions: register assignments, deleting while stopped, exit
      and restart included, and with no assumption on where the program lands. */
  lemma {:induction false} SessionInvariant(cpu: Cpu, session: Session, ref: Undebugged, cmds: seq<Command>)
    requires Lawful(cpu) && Follows(session, ref) && LeavesAll(cpu, session, ref, cmds)
    ensures Follows(ExecuteAll(cpu, session, cmds), ReferenceAll(cpu, session, ref, cmds))
    decreases |cmds|
  {
    if cmds != [] && session.Prompt? {
      var s := session.state;
      CommandFollows(cpu, s, ref, cmds[0]);
      SessionInvariant(cpu, Execute(cpu, s, cmds[0]), Reference(cpu, s, ref, cmds[0]), cmds[1..]);
    }
  }

  /** A session ends the debugger exactly when one of its commands is fatal. */
  lemma {:induction false} SessionQuits(cpu: Cpu, session: Session, ref: Undebugged, cmds: seq<Command>)
    requires Lawful(cpu) && Follows(session, ref) && LeavesAll(cpu, session, ref, cmds) && !session.Quit?
    ensures ExecuteAll(cpu, session, cmds) == Quit <==> FatalSomewhere(cpu, session, ref, cmds)
    decreases |cmds|
  {
    if cmds != [] && session.Prompt? {
      var s := session.state;
      CommandFollows(cpu, s, ref, cmds[0]);
      if !Fatal(cpu, s, ref, cmds[0]) {
        SessionQuits(cpu, Execute(cpu, s, cmds[0]), Reference(cpu, s, ref, cmds[0]), cmds[1..]);
      }
    }
  }

  /** Every session of a new debugger follows the program it debugs, and ends the debugger only
      by a fatal command. */
  lemma EverySession(cpu: Cpu, regs: Regs, cmds: seq<Command>)
    requires Lawful(cpu) && LeavesAll(cpu, Prompt(NewState(regs)), Dead, cmds)
    ensures var start := Prompt(NewState(regs));
      && Follows(ExecuteAll(cpu, start, cmds), ReferenceAll(cpu, start, Dead, cmds))
      && (ExecuteAll(cpu, start, cmds) == Quit <==> FatalSomewhere(cpu, start, Dead, cmds))
  {
    SessionInvariant(cpu, Prompt(NewState(regs)), Dead, cmds);
    SessionQuits(cpu, Prompt(NewState(regs)), Dead, cmds);
  }

  // ---------------------------------------------------------------- progress

  lemma ReportRetires(s: State)
    ensures Report(s).Prompt? ==> Report(s).state.retired == s.retired
  {
  }

  lemma AfterResumeRetires(s: State, h: Halt)
    ensures !AfterResume(s, h).Quit? ==> AfterResume(s, h).state.retired == s.retired + h.steps
  {
    if h.AtTrap? { ReportRetires(s.(proc := Live(h.regs, h.mem), retired := s.retired + h.steps)); }
  }

  lemma ContRetires(cpu: Cpu, s: State, extra: bool, fuel: nat)
    ensures var out := DoCont(cpu, s, extra, fuel); !out.Quit? ==> out.state.retired >= s.retired
  {
    if s.proc.Live? {
      var checked := CheckBp(StepTracee(cpu, s));
      if checked.Some? {
        var s2 := checked.value.0;
        ReportRetires(s2);
        if s2.proc.Live? {
          AfterResumeRetires(s2.(log := s2.log + [Resumed]), RunFree(cpu, s2.proc.regs, s2.proc.mem, fuel));
        }
      }
    }
  }

  lemma CommandRetires(cpu: Cpu, s: State, cmd: Command)
    ensures var out := Execute(cpu, s, cmd); !out.Quit? ==> out.state.retired >= s.retired
  {
    match cmd
    case Si => if s.proc.Live? { ReportRetires(StepTracee(cpu, s)); }
    case Cont(extra, fuel) => ContRetires(cpu, s, extra, fuel);
    case RunProgram(_, image, fuel) =>
      ContRetires(cpu, s, false, fuel);
      if DoStart(s, image).Prompt? { ContRetires(cpu, DoStart(s, image).state, false, fuel); }
    case _ =>
  }

  lemma {:induction false} SessionRetires(cpu: Cpu, session: Session, cmds: seq<Command>)
    requires !ExecuteAll(cpu, session, cmds).Quit?
    ensures !session.Quit? && session.state.retired <= ExecuteAll(cpu, session, cmds).state.retired
    decreases |cmds|
  {
    if cmds != [] && session.Prompt? {
      CommandRetires(cpu, session.state, cmds[0]);
      SessionRetires(cpu, Execute(cpu, session.state, cmds[0]), cmds[1..]);
    }
  }

  /** A sequence of commands is a prefix of it and then the rest. */
  lemma {:induction false} ExecuteSplit(cpu: Cpu, session: Session, cmds: seq<Command>, i: nat)
    requires i <= |cmds|
    ensures ExecuteAll(cpu, session, cmds) == ExecuteAll(cpu, ExecuteAll(cpu, session, cmds[..i]), cmds[i..])
    decreases |cmds|
  {
    if i > 0 && session.Prompt? {
      assert cmds[..i][0] == cmds[0] && cmds[..i][1..] == cmds[1..][..i - 1] && cmds[i..] == cmds[1..][i - 1..];
      ExecuteSplit(cpu, Execute(cpu, session.state, cmds[0]), cmds[1..], i - 1);
    } else if i == 0 {
      assert cmds[i..] == cmds;
    }
  }

  // ---------------------------------------------------------------- refused commands

  /** The commands that are turned away: in the wrong state, with nothing to act on, or asking for
      what is there already. */
  ghost predicate Refused(s: State, cmd: Command) {
    match cmd
    case Load(dynamic) => !s.status.NotLoaded? || dynamic.None?
    case Start(_) => !s.status.Loaded?
    case RunProgram(extra, _, _) => extra || s.status.NotLoaded?
    case Break(addr) => !s.status.Running? || exists i :: 0 <= i < |s.bps| && s.bps[i].addr == addr
    case Delete(id) => !s.status.Running? || id >= |s.bps|
    case Cont(extra, _) => !extra && !s.status.Running?
    case SetReg(_, _) => !s.status.Running?
    case GetReg(_) => !s.status.Running?
    case Si => false
    case ReadOnly => true
    case Exit => false
  }

  /** A refused command leaves memory, registers, the list, the status and the history exactly as
      they were. */
  lemma RefusedChangesNothing(cpu: Cpu, s: State, cmd: Command)
    requires Refused(s, cmd)
    ensures Execute(cpu, s, cmd) == Prompt(s)
  {
  }

  /** A command that is refused where it stands might as well not have been typed: the session ends
      as it does without it. */
  lemma RefusedDropped(cpu: Cpu, session: Session, before: seq<Command>, cmd: Command, rest: seq<Command>)
    requires ExecuteAll(cpu, session, before).Prompt? ==> Refused(ExecuteAll(cpu, session, before).state, cmd)
    ensures ExecuteAll(cpu, session, before + [cmd] + rest) == ExecuteAll(cpu, session, before + rest)
  {
    var mid, with, without := ExecuteAll(cpu, session, before), before + [cmd] + rest, before + rest;
    ExecuteSplit(cpu, session, with, |before|);
    ExecuteSplit(cpu, session, without, |before|);
    assert with[..|before|] == before && with[|before|..] == [cmd] + rest;
    assert without[..|before|] == before && without[|before|..] == rest;
    if mid.Prompt? {
      RefusedChangesNothing(cpu, mid.state, cmd);
      assert ([cmd] + rest)[0] == cmd && ([cmd] + rest)[1..] == rest;
    }
  }
}

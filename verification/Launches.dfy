/** What a session is set up for: which program was loaded, and where each launch puts it. No
    assumption is made about the program, the breakpoints, or the commands. */
module Launches {
  import opened Tracee
  import opened Sdb
  import opened Instrumented
  import opened Simulation
  import opened Editing
  import opened Numbering

  /** What the commands say: whether the program loaded is position-independent, once one has been
      loaded, and the base of the latest launch. */
  datatype Setting = Setting(loaded: Option<bool>, base: Addr)

  function Unloaded(): Setting { Setting(None, 0) }

  /** The first usable `load` counts. A launch, which takes a loaded program and no process, is at
      the image's base for a position-independent program and at 0 otherwise. */
  function Heed(u: Setting, live: bool, cmd: Command): Setting {
    match cmd
    case Load(dynamic) => if u.loaded.None? then u.(loaded := dynamic) else u
    case Start(image) => Launched(u, live, image)
    case RunProgram(extra, image, _) => if extra then u else Launched(u, live, image)
    case Break(_) => u
    case Delete(_) => u
    case Cont(_, _) => u
    case Si => u
    case SetReg(_, _) => u
    case GetReg(_) => u
    case ReadOnly => u
    case Exit => u
  }

  function Launched(u: Setting, live: bool, image: Image): Setting {
    if u.loaded.None? || live then u else u.(base := if u.loaded.value then image.base else 0)
  }

  ghost function HeedAll(cpu: Cpu, session: Session, u: Setting, cmds: seq<Command>): Setting
    decreases |cmds|
  {
    if cmds == [] || !session.Prompt? then u
    else
      var s := session.state;
      HeedAll(cpu, Execute(cpu, s, cmds[0]), Heed(u, s.proc.Live?, cmds[0]), cmds[1..])
  }

  // ---------------------------------------------------------------- the invariant

  /** The status is what was loaded and whether there is a process; the flag and the base are those
      of the program loaded and of its latest launch. */
  ghost predicate SetUp(s: State, u: Setting) {
    && s.status == (if u.loaded.None? then NotLoaded else if s.proc.Live? then Running else Loaded)
    && (u.loaded.None? ==> s.proc.Gone?)
    && (u.loaded.Some? ==> s.dynamic == u.loaded.value)
    && s.base == u.base
  }

  /** Once a launched process has been stopped again, the debugger's copy of its registers is good. */
  ghost predicate Copied(s: State) {
    s.proc.Live? && s.log != [] && !s.log[|s.log| - 1].Launched? ==> s.saved == s.proc.regs
  }

  ghost predicate Kept(session: Session, u: Setting) {
    match session
    case Quit => true
    case Waiting(s) => SetUp(s, u)
    case Prompt(s) => SetUp(s, u) && Copied(s)
  }

  // ---------------------------------------------------------------- one command

  lemma CheckBpKeeps(s: State)
    ensures CheckBp(s).Some? ==>
      var s' := CheckBp(s).value.0;
      && s'.proc.Live? && s' == s.(saved := s'.proc.regs, proc := s'.proc, log := s.log + [Rearmed])
  {
  }

  lemma RestoreKeeps(s: State, id: nat)
    requires id < |s.bps|
    ensures Restore(s, id).Some? ==>
      var s' := Restore(s, id).value;
      && s'.proc.Live?
      && s' == s.(saved := s'.proc.regs, proc := s'.proc, log := s.log + [Hit(id, Loc(s.base, s.bps[id]))])
  {
  }

  lemma ReportKept(s: State, u: Setting)
    requires s.proc.Live? && SetUp(s, u)
    ensures !Report(s).Waiting? && Kept(Report(s), u)
  {
    CheckBpKeeps(s);
    if CheckBp(s).Some? && CheckBp(s).value.1.Some? {
      RestoreKeeps(CheckBp(s).value.0, CheckBp(s).value.1.value);
    }
  }

  lemma AfterResumeKept(s: State, u: Setting, h: Halt)
    requires s.proc.Live? && SetUp(s, u)
    ensures Kept(AfterResume(s, h), u)
  {
    if h.AtTrap? { ReportKept(s.(proc := Live(h.regs, h.mem), retired := s.retired + h.steps), u); }
  }

  lemma StepKept(cpu: Cpu, s: State, u: Setting)
    requires s.proc.Live? && SetUp(s, u)
    ensures var s1 := StepTracee(cpu, s);
      if s1.proc.Live? then SetUp(s1, u) else CheckBp(s1).None? && Report(s1) == Quit
  {
  }

  lemma SiKept(cpu: Cpu, s: State, u: Setting)
    requires SetUp(s, u)
    ensures Kept(DoSi(cpu, s), u)
  {
    if s.proc.Live? {
      StepKept(cpu, s, u);
      if StepTracee(cpu, s).proc.Live? { ReportKept(StepTracee(cpu, s), u); }
    }
  }

  lemma ResumeKept(cpu: Cpu, s: State, u: Setting, fuel: nat)
    requires s.proc.Live? && SetUp(s, u)
    ensures Kept(Resume(cpu, s, fuel), u)
  {
    AfterResumeKept(s.(log := s.log + [Resumed]), u, RunFree(cpu, s.proc.regs, s.proc.mem, fuel));
  }

  lemma ContKept(cpu: Cpu, s: State, u: Setting, extra: bool, fuel: nat)
    requires Kept(Prompt(s), u)
    ensures Kept(DoCont(cpu, s, extra, fuel), u)
  {
    if s.proc.Live? {
      StepKept(cpu, s, u);
      var checked := CheckBp(StepTracee(cpu, s));
      CheckBpKeeps(StepTracee(cpu, s));
      if checked.Some? {
        ReportKept(checked.value.0, u);
        ResumeKept(cpu, checked.value.0, u, fuel);
      }
    }
  }

  lemma StartKept(s: State, u: Setting, image: Image)
    requires Kept(Prompt(s), u)
    ensures !DoStart(s, image).Waiting? && Kept(DoStart(s, image), Launched(u, s.proc.Live?, image))
  {
  }

  lemma RunKept(cpu: Cpu, s: State, u: Setting, image: Image, fuel: nat)
    requires Kept(Prompt(s), u)
    ensures Kept(DoRun(cpu, s, false, image, fuel), Launched(u, s.proc.Live?, image))
  {
    if s.status.Running? {
      ContKept(cpu, s, u, false, fuel);
    } else if s.status.Loaded? {
      StartKept(s, u, image);
      if DoStart(s, image).Prompt? {
        ContKept(cpu, DoStart(s, image).state, Launched(u, s.proc.Live?, image), false, fuel);
      }
    }
  }

  /** The commands that only edit: the registers they leave are copied. */
  lemma EditKept(cpu: Cpu, s: State, u: Setting, cmd: Command)
    requires Kept(Prompt(s), u)
    requires !cmd.Si? && !cmd.Cont? && !cmd.Start? && !cmd.RunProgram?
    ensures Kept(Execute(cpu, s, cmd), Heed(u, s.proc.Live?, cmd))
  {
  }

  lemma CommandKept(cpu: Cpu, s: State, u: Setting, cmd: Command)
    requires Kept(Prompt(s), u)
    ensures Kept(Execute(cpu, s, cmd), Heed(u, s.proc.Live?, cmd))
  {
    if cmd.Si? {
      SiKept(cpu, s, u);
    } else if cmd.Cont? {
      ContKept(cpu, s, u, cmd.extra, cmd.fuel);
    } else if cmd.Start? {
      StartKept(s, u, cmd.image);
    } else if cmd.RunProgram? {
      if !cmd.extra { RunKept(cpu, s, u, cmd.image, cmd.fuel); }
    } else {
      EditKept(cpu, s, u, cmd);
    }
  }

  // ---------------------------------------------------------------- sessions

  /** Over every sequence of commands the debugger stays set up as the commands say. */
  lemma {:induction false} SessionKept(cpu: Cpu, session: Session, u: Setting, cmds: seq<Command>)
    requires Kept(session, u)
    ensures Kept(ExecuteAll(cpu, session, cmds), HeedAll(cpu, session, u, cmds))
    decreases |cmds|
  {
    if cmds != [] && session.Prompt? {
      var s := session.state;
      CommandKept(cpu, s, u, cmds[0]);
      SessionKept(cpu, Execute(cpu, s, cmds[0]), Heed(u, s.proc.Live?, cmds[0]), cmds[1..]);
    }
  }

  /** Which program was loaded, read off the command lines alone. */
  function FirstLoad(cmds: seq<Command>): Option<bool> {
    if cmds == [] then None
    else if cmds[0].Load? && cmds[0].dynamic.Some? then cmds[0].dynamic
    else FirstLoad(cmds[1..])
  }

  lemma {:induction false} LoadedIsFirstLoad(cpu: Cpu, session: Session, u: Setting, cmds: seq<Command>)
    requires ExecuteAll(cpu, session, cmds).Prompt?
    ensures HeedAll(cpu, session, u, cmds).loaded == if u.loaded.Some? then u.loaded else FirstLoad(cmds)
    decreases |cmds|
  {
    if cmds != [] && session.Prompt? {
      var s := session.state;
      LoadedIsFirstLoad(cpu, Execute(cpu, s, cmds[0]), Heed(u, s.proc.Live?, cmds[0]), cmds[1..]);
    }
  }

  /** At every prompt of a new debugger: it is `NotLoaded` until the first usable `load` and never
      again, then `Running` exactly while there is a process, and it keeps what that `load` said;
      its base is that of the latest launch, and its copy of the registers is good. */
  lemma EveryPrompt(cpu: Cpu, regs: Regs, cmds: seq<Command>)
    requires ExecuteAll(cpu, Prompt(NewState(regs)), cmds).Prompt?
    ensures var s := ExecuteAll(cpu, Prompt(NewState(regs)), cmds).state;
      && s.status == (if FirstLoad(cmds).None? then NotLoaded else if s.proc.Live? then Running else Loaded)
      && (FirstLoad(cmds).Some? ==> s.dynamic == FirstLoad(cmds).value)
      && s.base == HeedAll(cpu, Prompt(NewState(regs)), Unloaded(), cmds).base && Copied(s)
  {
    SessionKept(cpu, Prompt(NewState(regs)), Unloaded(), cmds);
    LoadedIsFirstLoad(cpu, Prompt(NewState(regs)), Unloaded(), cmds);
  }

  /** Every launch of a session, the first and each later one: the program of the first usable
      `load` runs from the image's base or from 0 by what that `load` said, with each listed
      breakpoint planted there; it is fatal exactly when one of those words cannot be read. */
  lemma EveryLaunch(cpu: Cpu, regs: Regs, cmds: seq<Command>, image: Image)
    requires var out := ExecuteAll(cpu, Prompt(NewState(regs)), cmds);
      out.Prompt? && out.state.proc.Gone? && FirstLoad(cmds).Some?
    ensures var s := ExecuteAll(cpu, Prompt(NewState(regs)), cmds).state;
      var base := if FirstLoad(cmds).value then image.base else 0;
      if AllReadable(base, s.bps, image.mem) then
        && DoStart(s, image).Prompt?
        && var s' := DoStart(s, image).state;
        && s'.base == base && s'.dynamic == s.dynamic
        && Tracks(s', Alive(image.regs, image.mem)) && FullyArmed(s')
        && |s'.bps| == |s.bps| && forall i :: 0 <= i < |s.bps| ==> s'.bps[i].addr == s.bps[i].addr
      else DoStart(s, image) == Quit
  {
    EveryPrompt(cpu, regs, cmds);
    IdsFromTheStart(cpu, regs, cmds);
    StartEffect(ExecuteAll(cpu, Prompt(NewState(regs)), cmds).state, image);
  }
}

/** The re-arming protocol, read off the history of a session alone: no assumption is made
    about the program, the breakpoints, or the commands. */
module History {
  import opened Tracee
  import opened Sdb

  /** Everything is re-armed somewhere strictly between two moments. */
  ghost predicate RearmedBetween(log: seq<Event>, i: int, j: int)
    requires 0 <= i && j <= |log|
  {
    exists k :: i < k < j && (log[k].Rearmed? || log[k].Launched?)
  }

  /** From a hit, which disarms its breakpoint, until everything is re-armed: the process is
      never resumed freely, no other breakpoint is disarmed, and at most one single step is
      taken. */
  ghost predicate Safe(log: seq<Event>) {
    && (forall i, j :: 0 <= i < j < |log| && log[i].Hit? && (log[j].Resumed? || log[j].Hit?) ==>
          RearmedBetween(log, i, j))
    && (forall i, j, k :: 0 <= i < j < k < |log| && log[i].Hit? && log[j].Stepped? && log[k].Stepped? ==>
          RearmedBetween(log, i, k))
  }

  /** What the history says now: all armed; one breakpoint disarmed; one disarmed and a step
      already taken; or the protocol was broken. */
  datatype Phase = AllSet | Open | Spent | Broken

  function Track(p: Phase, e: Event): Phase {
    match e
    case Launched => if p.Broken? then Broken else AllSet
    case Rearmed => if p.Broken? then Broken else AllSet
    case Stepped => if p.AllSet? then AllSet else if p.Open? then Spent else Broken
    case Resumed => if p.AllSet? then AllSet else Broken
    case Hit(_, _) => if p.AllSet? then Open else Broken
  }

  function Replay(log: seq<Event>): Phase {
    if log == [] then AllSet else Track(Replay(log[..|log| - 1]), log[|log| - 1])
  }

  lemma ReplaySnoc(log: seq<Event>, e: Event)
    ensures Replay(log + [e]) == Track(Replay(log), e)
  {
  }

  // ---------------------------------------------------------------- the phases are sound

  ghost predicate PhaseMeans(log: seq<Event>, p: Phase) {
    match p
    case AllSet => forall i :: 0 <= i < |log| && log[i].Hit? ==> RearmedBetween(log, i, |log|)
    case Open => forall i, j :: 0 <= i < j < |log| && log[i].Hit? && log[j].Stepped? ==> RearmedBetween(log, i, |log|)
    case Spent => true
    case Broken => false
  }

  lemma RearmedLater(log: seq<Event>, log': seq<Event>, i: int, j: int)
    requires 0 <= i && j <= |log| < |log'| && log'[..|log|] == log && RearmedBetween(log, i, j)
    ensures forall k :: j <= k <= |log'| ==> RearmedBetween(log', i, k)
  {
  }

  lemma PhaseStep(log: seq<Event>, e: Event)
    requires Safe(log) && PhaseMeans(log, Replay(log)) && Replay(log + [e]) != Broken
    ensures Safe(log + [e]) && PhaseMeans(log + [e], Replay(log + [e]))
  {
    var log', n := log + [e], |log|;
    ReplaySnoc(log, e);
    assert log'[..n] == log && forall i :: 0 <= i < n ==> log'[i] == log[i];
    forall i, j | 0 <= i < j < |log'| && log'[i].Hit? && (log'[j].Resumed? || log'[j].Hit?)
      ensures RearmedBetween(log', i, j)
    {
      RearmedLater(log, log', i, if j < n then j else n);
    }
    forall i, j, k | 0 <= i < j < k < |log'| && log'[i].Hit? && log'[j].Stepped? && log'[k].Stepped?
      ensures RearmedBetween(log', i, k)
    {
      RearmedLater(log, log', i, if k < n then k else n);
    }
    if e.Launched? || e.Rearmed? {
      PhaseAfterRearm(log, e);
    } else {
      PhaseAfterOther(log, e);
    }
  }

  lemma PhaseAfterRearm(log: seq<Event>, e: Event)
    requires e.Launched? || e.Rearmed?
    ensures PhaseMeans(log + [e], AllSet)
  {
    var log' := log + [e];
    forall i | 0 <= i < |log'| && log'[i].Hit?
      ensures RearmedBetween(log', i, |log'|)
    {
      assert i < |log| && log'[|log|] == e;
    }
  }

  lemma PhaseAfterOther(log: seq<Event>, e: Event)
    requires PhaseMeans(log, Replay(log)) && Track(Replay(log), e) != Broken && !e.Launched? && !e.Rearmed?
    ensures PhaseMeans(log + [e], Track(Replay(log), e))
  {
    var log', n := log + [e], |log|;
    assert log'[..n] == log && forall i :: 0 <= i < n ==> log'[i] == log[i];
    if Replay(log).AllSet? {
      forall i | 0 <= i < n && log'[i].Hit?
        ensures RearmedBetween(log', i, n + 1)
      {
        RearmedLater(log, log', i, n);
      }
    }
  }

  lemma {:induction false} UnbrokenIsSafe(log: seq<Event>)
    requires Replay(log) != Broken
    ensures Safe(log) && PhaseMeans(log, Replay(log))
    decreases |log|
  {
    if log != [] {
      var front := log[..|log| - 1];
      UnbrokenIsSafe(front);
      assert log == front + [log[|log| - 1]];
      PhaseStep(front, log[|log| - 1]);
    }
  }

  // ---------------------------------------------------------------- every command keeps to it

  /** Between commands everything is armed or the last hit is open; while a process runs freely
      everything is armed. */
  ghost predicate InPhase(session: Session) {
    match session
    case Quit => true
    case Waiting(s) => Replay(s.log).AllSet?
    case Prompt(s) => Replay(s.log).AllSet? || Replay(s.log).Open?
  }

  lemma CheckBpLog(s: State)
    ensures CheckBp(s).Some? ==> CheckBp(s).value.0.proc.Live? && CheckBp(s).value.0.log == s.log + [Rearmed]
  {
  }

  lemma CheckBpPhase(s: State)
    requires !Replay(s.log).Broken?
    ensures CheckBp(s).Some? ==> CheckBp(s).value.0.proc.Live? && Replay(CheckBp(s).value.0.log).AllSet?
  {
    CheckBpLog(s);
    ReplaySnoc(s.log, Rearmed);
  }

  /** What a report adds to a history: everything re-armed, and then perhaps one hit. */
  ghost predicate StopLogged(log: seq<Event>, log': seq<Event>) {
    || log' == log + [Rearmed]
    || exists id: nat, at: Addr :: log' == log + [Rearmed, Hit(id, at)]
  }

  lemma ReportLog(s: State)
    ensures !Report(s).Waiting?
    ensures Report(s).Prompt? ==> Report(s).state.proc.Live? && StopLogged(s.log, Report(s).state.log)
  {
    if Report(s).Prompt? && CheckBp(s).value.1.Some? {
      var s1, id := CheckBp(s).value.0, CheckBp(s).value.1.value;
      var at := Loc(s1.base, s1.bps[id]);
      assert (s.log + [Rearmed]) + [Hit(id, at)] == s.log + [Rearmed, Hit(id, at)];
    }
  }

  lemma LogPhase(log: seq<Event>, log': seq<Event>)
    requires !Replay(log).Broken? && StopLogged(log, log')
    ensures Replay(log').AllSet? || Replay(log').Open?
  {
    ReplaySnoc(log, Rearmed);
    if log' != log + [Rearmed] {
      var id: nat, at: Addr :| log' == log + [Rearmed, Hit(id, at)];
      ReplaySnoc(log + [Rearmed], Hit(id, at));
      assert (log + [Rearmed]) + [Hit(id, at)] == log';
    }
  }

  lemma ReportPhase(s: State)
    requires !Replay(s.log).Broken?
    ensures InPhase(Report(s))
  {
    ReportLog(s);
    if Report(s).Prompt? { LogPhase(s.log, Report(s).state.log); }
  }

  lemma AfterResumePhase(s: State, h: Halt)
    requires Replay(s.log).AllSet?
    ensures InPhase(AfterResume(s, h))
  {
    if h.AtTrap? { ReportPhase(s.(proc := Live(h.regs, h.mem), retired := s.retired + h.steps)); }
  }

  lemma StepLog(cpu: Cpu, s: State)
    requires s.proc.Live?
    ensures StepTracee(cpu, s).log == s.log + [Stepped]
  {
  }

  lemma StepPhase(cpu: Cpu, s: State)
    requires s.proc.Live? && InPhase(Prompt(s))
    ensures !Replay(StepTracee(cpu, s).log).Broken?
  {
    StepLog(cpu, s);
    ReplaySnoc(s.log, Stepped);
  }

  lemma ResumePhase(cpu: Cpu, s: State, fuel: nat)
    requires s.proc.Live? && Replay(s.log).AllSet?
    ensures InPhase(Resume(cpu, s, fuel))
  {
    ReplaySnoc(s.log, Resumed);
    AfterResumePhase(s.(log := s.log + [Resumed]), RunFree(cpu, s.proc.regs, s.proc.mem, fuel));
  }

  lemma ContPhase(cpu: Cpu, s: State, extra: bool, fuel: nat)
    requires InPhase(Prompt(s))
    ensures InPhase(DoCont(cpu, s, extra, fuel))
  {
    if s.proc.Live? {
      StepPhase(cpu, s);
      var checked := CheckBp(StepTracee(cpu, s));
      CheckBpPhase(StepTracee(cpu, s));
      if checked.Some? {
        ReportPhase(checked.value.0);
        ResumePhase(cpu, checked.value.0, fuel);
      }
    }
  }

  lemma StartPhase(s: State, image: Image)
    requires InPhase(Prompt(s))
    ensures InPhase(DoStart(s, image))
  {
    ReplaySnoc(s.log, Launched);
  }

  lemma SiPhase(cpu: Cpu, s: State)
    requires InPhase(Prompt(s))
    ensures InPhase(DoSi(cpu, s))
  {
    if s.proc.Live? {
      StepPhase(cpu, s);
      ReportPhase(StepTracee(cpu, s));
    }
  }

  lemma RunPhase(cpu: Cpu, s: State, extra: bool, image: Image, fuel: nat)
    requires InPhase(Prompt(s))
    ensures InPhase(DoRun(cpu, s, extra, image, fuel))
  {
    if s.status.Running? {
      ContPhase(cpu, s, false, fuel);
    } else {
      StartPhase(s, image);
      if DoStart(s, image).Prompt? { ContPhase(cpu, DoStart(s, image).state, false, fuel); }
    }
  }

  /** The other commands leave the history as it was. */
  lemma OthersSilent(cpu: Cpu, s: State, cmd: Command)
    requires !cmd.Si? && !cmd.Cont? && !cmd.Start? && !cmd.RunProgram?
    ensures var out := Execute(cpu, s, cmd); !out.Waiting? && (out.Prompt? ==> out.state.log == s.log)
  {
  }

  lemma CommandPhase(cpu: Cpu, s: State, cmd: Command)
    requires InPhase(Prompt(s))
    ensures InPhase(Execute(cpu, s, cmd))
  {
    if cmd.Si? {
      SiPhase(cpu, s);
    } else if cmd.Cont? {
      ContPhase(cpu, s, cmd.extra, cmd.fuel);
    } else if cmd.Start? {
      StartPhase(s, cmd.image);
    } else if cmd.RunProgram? {
      RunPhase(cpu, s, cmd.extra, cmd.image, cmd.fuel);
    } else {
      OthersSilent(cpu, s, cmd);
    }
  }

  lemma {:induction false} SessionPhase(cpu: Cpu, session: Session, cmds: seq<Command>)
    requires InPhase(session)
    ensures InPhase(ExecuteAll(cpu, session, cmds))
    decreases |cmds|
  {
    if cmds != [] && session.Prompt? {
      CommandPhase(cpu, session.state, cmds[0]);
      SessionPhase(cpu, Execute(cpu, session.state, cmds[0]), cmds[1..]);
    }
  }

  /** Safety over whole runs, whatever the program does: the process is resumed freely only with
      everything re-armed since the last hit, at most one breakpoint is disarmed at a time, and
      it is re-armed after at most one single step. */
  lemma SessionSafe(cpu: Cpu, session: Session, cmds: seq<Command>)
    requires InPhase(session) && !ExecuteAll(cpu, session, cmds).Quit?
    ensures Safe(ExecuteAll(cpu, session, cmds).state.log)
  {
    SessionPhase(cpu, session, cmds);
    UnbrokenIsSafe(ExecuteAll(cpu, session, cmds).state.log);
  }

  /** In particular every session of a new debugger. */
  lemma SafeFromTheStart(cpu: Cpu, regs: Regs, cmds: seq<Command>)
    requires !ExecuteAll(cpu, Prompt(NewState(regs)), cmds).Quit?
    ensures Safe(ExecuteAll(cpu, Prompt(NewState(regs)), cmds).state.log)
  {
    SessionSafe(cpu, Prompt(NewState(regs)), cmds);
  }
}

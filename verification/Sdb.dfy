/** The debugger's commands as functions on its whole state: the specification the
    imperative `Debugger` class meets, and the object every theorem is about. */
module Sdb {
  import opened Tracee

  datatype Status = NotLoaded | Loaded | Running

  /** A breakpoint: its address relative to the load base, and the byte it overwrote. */
  datatype Bp = Bp(addr: Addr, ovalue: bv8)

  datatype Process = Gone | Live(regs: Regs, mem: Mem)

  /** What fork and exec produce: fresh memory and registers, and the load base. */
  datatype Image = Image(regs: Regs, mem: Mem, base: Addr)

  /** The history of the protocol: each resumption of the process, each pass that re-arms
      every breakpoint, and each reported hit, which is also what disarms a breakpoint. */
  datatype Event = Launched | Stepped | Resumed | Rearmed | Hit(id: nat, at: Addr)

  /** `saved` is the debugger's copy of the registers; `retired` counts the instructions
      the process has executed; `log` is the history. */
  datatype State = State(status: Status, dynamic: bool, base: Addr, bps: seq<Bp>, saved: Regs,
                         proc: Process, retired: nat, log: seq<Event>)

  /** Between commands the debugger is at its prompt; it waits while a resumed process has
      not stopped; it is gone after `exit` or a fatal ptrace error. */
  datatype Session = Quit | Waiting(state: State) | Prompt(state: State)

  /** A command line after tokenising. `ReadOnly` stands for unknown instructions, wrong
      argument counts that stop a command, and commands that only print. */
  datatype Command =
    | Load(dynamic: Option<bool>)
    | Start(image: Image)
    | RunProgram(extra: bool, image: Image, fuel: nat)
    | Break(addr: Addr)
    | Delete(id: nat)
    | Cont(extra: bool, fuel: nat)
    | Si
    | SetReg(name: string, value: Word)
    | GetReg(name: string)
    | ReadOnly
    | Exit

  const REGISTERS: set<string> :=
    {"rax", "rbx", "rcx", "rdx", "r8", "r9", "r10", "r11", "r12", "r13", "r14", "r15",
     "rdi", "rsi", "rbp", "rsp", "flags"}

  function Loc(base: Addr, bp: Bp): Addr { Plus(base, bp.addr) }

  // ---------------------------------------------------------------- patching

  /** `change_byte` on the traced process: nothing when the word cannot be read, which is fatal. */
  function Patched(s: State, a: Addr, v: bv8): Option<State> {
    if s.proc.Live? && Readable(s.proc.mem, a)
    then Some(s.(proc := Live(s.proc.regs, s.proc.mem[a := v])))
    else None
  }

  /** The re-arming loop of `checkbp`. */
  function ArmAll(m: Mem, base: Addr, bps: seq<Bp>): Option<Mem> {
    if bps == [] then Some(m)
    else if Readable(m, Loc(base, bps[0])) then ArmAll(m[Loc(base, bps[0]) := INT3], base, bps[1..])
    else None
  }

  /** The loop of `start` that plants every saved breakpoint in a new image. */
  function PlantAll(m: Mem, base: Addr, bps: seq<Bp>): Option<(Mem, seq<Bp>)> {
    if bps == [] then Some((m, []))
    else
      var a := Loc(base, bps[0]);
      if !Readable(m, a) then None
      else match PlantAll(m[a := INT3], base, bps[1..])
        case None => None
        case Some((m', rest)) => Some((m', [bps[0].(ovalue := m[a])] + rest))
  }

  /** The first breakpoint planted at an address. */
  function Find(bps: seq<Bp>, base: Addr, at: Addr): (r: Option<nat>)
    ensures r.Some? ==> r.value < |bps| && Loc(base, bps[r.value]) == at
    ensures r.Some? ==> forall i :: 0 <= i < r.value ==> Loc(base, bps[i]) != at
    ensures r.None? ==> forall i :: 0 <= i < |bps| ==> Loc(base, bps[i]) != at
  {
    if bps == [] then None
    else if Loc(base, bps[0]) == at then Some(0)
    else match Find(bps[1..], base, at)
      case None => None
      case Some(i) => Some(i + 1)
  }

  function SetBreak(s: State, addr: Addr): Option<State> {
    if exists i :: 0 <= i < |s.bps| && s.bps[i].addr == addr then Some(s)
    else match Patched(s, Plus(s.base, addr), INT3)
      case None => None
      case Some(s') => Some(s'.(bps := s.bps + [Bp(addr, s.proc.mem[Plus(s.base, addr)])]))
  }

  // ---------------------------------------------------------------- stopping

  /** `checkbp`: the byte before `rip` is read first, then every breakpoint is re-armed. */
  function CheckBp(s: State): Option<(State, Option<nat>)> {
    match s.proc
    case Gone => None
    case Live(r, m) =>
      match ArmAll(m, s.base, s.bps)
      case None => None
      case Some(m') =>
        var s' := s.(saved := r, proc := Live(r, m'), log := s.log + [Rearmed]);
        var found := Find(s.bps, s.base, Prev(r.rip));
        Some((s', if PeekByte(m, Prev(r.rip)) == INT3 then found else None))
  }

  /** `restore`: put the original byte back and step `rip` back onto it. */
  function Restore(s: State, id: nat): Option<State>
    requires id < |s.bps|
  {
    var a := Loc(s.base, s.bps[id]);
    match Patched(s, a, s.bps[id].ovalue)
    case None => None
    case Some(s') =>
      var r := s'.proc.regs;
      var r' := r.(rip := Prev(r.rip));
      Some(s'.(saved := r', proc := Live(r', s'.proc.mem), log := s.log + [Hit(id, a)]))
  }

  /** The end of `si` and `cont`: look for a hit, report it and disarm it. */
  function Report(s: State): Session {
    match CheckBp(s)
    case None => Quit
    case Some((s', None)) => Prompt(s')
    case Some((s', Some(id))) =>
      match Restore(s', id)
      case None => Quit
      case Some(s'') => Prompt(s'')
  }

  /** PTRACE_SINGLESTEP and the wait for it. */
  function StepTracee(cpu: Cpu, s: State): State
    requires s.proc.Live?
  {
    match HwStep(cpu, s.proc.regs, s.proc.mem)
    case Trapped(r) => s.(proc := Live(r, s.proc.mem), log := s.log + [Stepped])
    case Executed(r, m) => s.(proc := Live(r, m), retired := s.retired + 1, log := s.log + [Stepped])
    case Exited => s.(proc := Gone, log := s.log + [Stepped])
  }

  /** What follows PTRACE_CONT once the process stops, exits, or is still running. */
  function AfterResume(s: State, h: Halt): Session {
    match h
    case AtTrap(r, m, n) => Report(s.(proc := Live(r, m), retired := s.retired + n))
    case AtExit(n) => Prompt(s.(status := Loaded, proc := Gone, retired := s.retired + n))
    case Busy(r, m, n) => Waiting(s.(proc := Live(r, m), retired := s.retired + n))
  }

  /** PTRACE_CONT, observed for `fuel` hardware steps. */
  function Resume(cpu: Cpu, s: State, fuel: nat): Session
    requires s.proc.Live?
  {
    AfterResume(s.(log := s.log + [Resumed]), RunFree(cpu, s.proc.regs, s.proc.mem, fuel))
  }

  // ---------------------------------------------------------------- the commands

  function DoBreak(s: State, addr: Addr): Session {
    if !s.status.Running? then Prompt(s)
    else match SetBreak(s, addr)
      case None => Quit
      case Some(s') => Prompt(s')
  }

  function DoDelete(s: State, id: nat): Session {
    if !s.status.Running? || id >= |s.bps| then Prompt(s)
    else match Patched(s, Loc(s.base, s.bps[id]), s.bps[id].ovalue)
      case None => Quit
      case Some(s') => Prompt(s'.(bps := s.bps[..id] + s.bps[id + 1..]))
  }

  /** `si` does not look at the program state; without a process the wait fails. */
  function DoSi(cpu: Cpu, s: State): Session {
    if s.proc.Gone? then Quit else Report(StepTracee(cpu, s))
  }

  /** With extra arguments `cont` complains and then goes on without checking the state. */
  function DoCont(cpu: Cpu, s: State, extra: bool, fuel: nat): Session {
    if !extra && !s.status.Running? then Prompt(s)
    else if s.proc.Gone? then Quit
    else match CheckBp(StepTracee(cpu, s))
      case None => Quit
      case Some((s', None)) => Resume(cpu, s', fuel)
      case Some((s', Some(_))) => Report(s')
  }

  function DoStart(s: State, image: Image): Session {
    if !s.status.Loaded? then Prompt(s)
    else
      var base := if s.dynamic then image.base else 0;
      match PlantAll(image.mem, base, s.bps)
      case None => Quit
      case Some((m, bps)) =>
        Prompt(s.(status := Running, base := base, bps := bps,
                  proc := Live(image.regs, m), log := s.log + [Launched]))
  }

  function DoRun(cpu: Cpu, s: State, extra: bool, image: Image, fuel: nat): Session {
    if extra then Prompt(s)
    else match s.status
      case NotLoaded => Prompt(s)
      case Running => DoCont(cpu, s, false, fuel)
      case Loaded =>
        match DoStart(s, image)
        case Prompt(s') => DoCont(cpu, s', false, fuel)
        case ended => ended
  }

  /** Registers after an assignment by name; an unknown name assigns nothing. */
  function Assign(r: Regs, name: string, value: Word): Regs {
    if name == "rip" then r.(rip := value)
    else if name in REGISTERS then r.(others := r.others[name := value])
    else r
  }

  /** What `get` shows: the register of that name, if it knows one. */
  function Named(r: Regs, name: string): Option<Word> {
    if name == "rip" then Some(r.rip)
    else if name in REGISTERS && name in r.others then Some(r.others[name])
    else None
  }

  function DoSetReg(s: State, name: string, value: Word): Session {
    if !s.status.Running? then Prompt(s)
    else match s.proc
      case Gone => Quit
      case Live(r, m) => Prompt(s.(saved := Assign(r, name, value), proc := Live(Assign(r, name, value), m)))
  }

  function DoGetReg(s: State): Session {
    if !s.status.Running? then Prompt(s)
    else match s.proc
      case Gone => Quit
      case Live(r, m) => Prompt(s.(saved := r))
  }

  function DoLoad(s: State, dynamic: Option<bool>): State {
    if s.status.NotLoaded? && dynamic.Some? then s.(status := Loaded, dynamic := dynamic.value) else s
  }

  function Execute(cpu: Cpu, s: State, cmd: Command): Session {
    match cmd
    case Load(dynamic) => Prompt(DoLoad(s, dynamic))
    case Start(image) => DoStart(s, image)
    case RunProgram(extra, image, fuel) => DoRun(cpu, s, extra, image, fuel)
    case Break(addr) => DoBreak(s, addr)
    case Delete(id) => DoDelete(s, id)
    case Cont(extra, fuel) => DoCont(cpu, s, extra, fuel)
    case Si => DoSi(cpu, s)
    case SetReg(name, value) => DoSetReg(s, name, value)
    case GetReg(_) => DoGetReg(s)
    case ReadOnly => Prompt(s)
    case Exit => Quit
  }

  /** Commands are read only at the prompt. */
  function ExecuteAll(cpu: Cpu, session: Session, cmds: seq<Command>): Session
    decreases |cmds|
  {
    if cmds == [] || !session.Prompt? then session
    else ExecuteAll(cpu, Execute(cpu, session.state, cmds[0]), cmds[1..])
  }

  /** The debugger as it starts. */
  function NewState(regs: Regs): State { State(NotLoaded, false, 0, [], regs, Gone, 0, []) }
}

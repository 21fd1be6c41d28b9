/** The debugger as it is written: global fields updated in place, the process patched a word
    at a time, loops over the breakpoint list. Every method is tied to its function in `Sdb`. */
module Debugger {
  import opened Tracee
  import opened Patch
  import opened S = Sdb
  import opened Dump
  import Editing

  /** The kernel's side of ptrace for one traced process. */
  class TracedProcess {
    const cpu: Cpu
    var alive: bool
    var regs: Regs
    var mem: Mem
    ghost var retired: nat

    constructor (cpu: Cpu, regs: Regs)
      ensures this.cpu == cpu && !alive && this.regs == regs && retired == 0
    {
      this.cpu := cpu;
      this.regs := regs;
      alive, mem, retired := false, map[], 0;
    }

    ghost function View(): Process
      reads this
    {
      if alive then Live(regs, mem) else Gone
    }

    method PeekData(a: Addr) returns (w: bv64)
      ensures w == if alive then Peek(mem, a) else PEEK_FAILED
    {
      w := if alive then Peek(mem, a) else PEEK_FAILED;
    }

    /** A peeked word laid out in a byte buffer. */
    method PeekBytes(a: Addr) returns (b: seq<bv8>)
      ensures b == WordBytes(Seen(View()), a)
    {
      var word := PeekData(a);
      PeekedBytes(Seen(View()), a);
      b := BytesOf(word);
    }

    method PokeData(a: Addr, w: bv64) returns (ok: bool)
      modifies `mem
      ensures ok == (alive && Readable(old(mem), a))
      ensures mem == if ok then Poke(old(mem), a, w) else old(mem)
    {
      ok := alive && a + 8 <= SPACE && forall k :: a <= k < a + 8 ==> k in mem;
      if ok { mem := Poke(mem, a, w); }
    }

    method Launch(regs: Regs, mem: Mem)
      modifies `alive, `regs, `mem
      ensures View() == Live(regs, mem)
    {
      alive, this.regs, this.mem := true, regs, mem;
    }

    /** PTRACE_SINGLESTEP; the process may end. */
    method SingleStep()
      requires alive
      modifies this
      ensures match HwStep(cpu, old(regs), old(mem))
        case Trapped(r) => View() == Live(r, old(mem)) && retired == old(retired)
        case Executed(r, m) => View() == Live(r, m) && retired == old(retired) + 1
        case Exited => View() == Gone && retired == old(retired)
    {
      match HwStep(cpu, regs, mem)
      case Trapped(r) => regs := r;
      case Executed(r, m) => regs, mem, retired := r, m, retired + 1;
      case Exited => alive := false;
    }

    /** PTRACE_CONT and a wait of `fuel` hardware steps. */
    method Continue(fuel: nat) returns (h: Halt)
      requires alive
      modifies this
      ensures h == RunFree(cpu, old(regs), old(mem), fuel) && retired == old(retired) + h.steps
      ensures View() == match h
        case AtExit(_) => Gone
        case AtTrap(r, m, _) => Live(r, m)
        case Busy(r, m, _) => Live(r, m)
    {
      h := RunFree(cpu, regs, mem, fuel);
      if h.AtExit? {
        alive := false;
      } else {
        regs, mem := h.regs, h.mem;
      }
      retired := retired + h.steps;
    }
  }

  /** The outcome of the rest of the planting loop, put after what it has done so far. */
  ghost function After(done: seq<Bp>, out: Option<(Mem, seq<Bp>)>): Option<(Mem, seq<Bp>)> {
    match out case None => None case Some((m, rest)) => Some((m, done + rest))
  }

  lemma FirstPlanted(done: seq<Bp>, out: Option<(Mem, seq<Bp>)>)
    requires done == []
    ensures After(done, out) == out
  {
    if out.Some? { assert done + out.value.1 == out.value.1; }
  }

  lemma NextPlanted(done: seq<Bp>, bp: Bp, out: Option<(Mem, seq<Bp>)>)
    ensures After(done, After([bp], out)) == After(done + [bp], out)
  {
    if out.Some? { assert done + ([bp] + out.value.1) == (done + [bp]) + out.value.1; }
  }

  /** The state once a resumed process has been waited for. */
  ghost function Halted(s: State, h: Halt): State {
    s.(retired := s.retired + h.steps,
       proc := match h case AtExit(_) => Gone case AtTrap(r, m, _) => Live(r, m) case Busy(r, m, _) => Live(r, m))
  }

  class Debugger {
    const process: TracedProcess
    var status: Status
    var dynamic: bool
    var base: Addr
    var bplist: seq<Bp>
    var regs: Regs
    /** The debugger has exited, or is blocked waiting for the process. */
    var quit: bool
    var waiting: bool
    ghost var log: seq<Event>

    constructor (cpu: Cpu, regs: Regs)
      ensures AtPrompt() && fresh(process) && process.cpu == cpu
      ensures Now() == State(NotLoaded, false, 0, [], regs, Gone, 0, [])
    {
      process := new TracedProcess(cpu, regs);
      status, dynamic, base, bplist, log := NotLoaded, false, 0, [], [];
      this.regs := regs;
      quit, waiting := false, false;
    }

    ghost predicate AtPrompt()
      reads this
    {
      !quit && !waiting
    }

    ghost function Now(): State
      reads this, process
    {
      State(status, dynamic, base, bplist, regs, process.View(), process.retired, log)
    }

    ghost function Model(): Session
      reads this, process
    {
      if quit then Quit else if waiting then Waiting(Now()) else Prompt(Now())
    }

    // -------------------------------------------------------------- patching

    method ChangeByte(addr: Addr, value: bv8) returns (ovalue: bv8)
      requires AtPrompt()
      modifies `quit, process`mem
      ensures !waiting && quit == !(process.alive && Readable(old(process.mem), addr))
      ensures !quit ==> process.mem == old(process.mem)[addr := value] && ovalue == old(process.mem)[addr]
    {
      var word := process.PeekData(addr);
      var ok := process.PokeData(addr, (word & 0xffff_ffff_ffff_ff00) | (value as bv64));
      if !ok {
        quit := true;
      }
      if ok {
        SpliceAt(old(process.mem), addr, value);
      }
      ovalue := Low(word);
    }

    method SetBreak(addr: Addr) returns (code: int)
      requires AtPrompt()
      modifies `quit, `bplist, process`mem
      ensures !waiting && quit == S.SetBreak(old(Now()), addr).None?
      ensures !quit ==> Now() == S.SetBreak(old(Now()), addr).value
      ensures !quit ==>
        code == if exists i :: 0 <= i < |old(bplist)| && old(bplist)[i].addr == addr then -1 else 0
    {
      for i := 0 to |bplist|
        invariant forall j :: 0 <= j < i ==> bplist[j].addr != addr
      {
        if addr == bplist[i].addr {
          return -1;
        }
      }
      var ovalue := ChangeByte(Plus(base, addr), INT3);
      if quit {
        return -1;
      }
      bplist := bplist + [Bp(addr, ovalue)];
      code := 0;
    }

    // -------------------------------------------------------------- stopping

    method ArmAll()
      requires AtPrompt() && process.alive
      modifies `quit, process`mem
      ensures !waiting && quit == S.ArmAll(old(process.mem), base, bplist).None?
      ensures !quit ==> process.mem == S.ArmAll(old(process.mem), base, bplist).value
    {
      for i := 0 to |bplist|
        modifies `quit, process`mem
        invariant !quit
        invariant S.ArmAll(process.mem, base, bplist[i..]) == S.ArmAll(old(process.mem), base, bplist)
      {
        assert bplist[i..][0] == bplist[i] && bplist[i..][1..] == bplist[i + 1..];
        var _ := ChangeByte(Plus(base, bplist[i].addr), INT3);
        if quit {
          return;
        }
      }
    }

    method CheckBp() returns (bpid: int)
      requires AtPrompt()
      modifies `quit, `regs, `log, process`mem
      ensures !waiting && quit == S.CheckBp(old(Now())).None?
      ensures !quit ==> var (s, hit) := S.CheckBp(old(Now())).value;
        Now() == s && bpid == if hit.Some? then hit.value else -1
    {
      bpid := -1;
      if !process.alive {
        quit := true;
        return;
      }
      regs := process.regs;
      var word := process.PeekData(Prev(regs.rip));
      LowPeek(process.mem, Prev(regs.rip));
      ArmAll();
      if quit {
        return;
      }
      log := log + [Rearmed];
      for i := 0 to |bplist|
        invariant forall j :: 0 <= j < i ==> Loc(base, bplist[j]) != Prev(regs.rip)
      {
        if Prev(regs.rip) == Plus(base, bplist[i].addr) {
          return if Low(word) == INT3 then i else -1;
        }
      }
    }

    method Restore(bpid: nat)
      requires AtPrompt() && process.alive && bpid < |bplist|
      modifies `quit, `regs, `log, process`mem, process`regs
      ensures !waiting && quit == S.Restore(old(Now()), bpid).None?
      ensures !quit ==> Now() == S.Restore(old(Now()), bpid).value
    {
      regs := process.regs;
      var _ := ChangeByte(Plus(base, bplist[bpid].addr), bplist[bpid].ovalue);
      if quit {
        return;
      }
      log := log + [Hit(bpid, Loc(base, bplist[bpid]))];
      regs := regs.(rip := Prev(regs.rip));
      process.regs := regs;
    }

    /** The shared tail of `inssi` and `inscont`. */
    method Report()
      requires AtPrompt()
      modifies `quit, `regs, `log, process`mem, process`regs
      ensures Model() == S.Report(old(Now()))
    {
      var bpid := CheckBp();
      if !quit && bpid != -1 {
        Restore(bpid);
      }
    }

    /** PTRACE_SINGLESTEP and waitpid. */
    method StepAndWait()
      requires AtPrompt() && process.alive
      modifies `log, process
      ensures Now() == S.StepTracee(process.cpu, old(Now()))
    {
      process.SingleStep();
      log := log + [Stepped];
    }

    // -------------------------------------------------------------- commands

    method InsBreak(addr: Addr)
      requires AtPrompt()
      modifies this, process
      ensures Model() == S.DoBreak(old(Now()), addr)
    {
      if status != Running {
        return;
      }
      var _ := SetBreak(addr);
    }

    method InsDelete(bpid: nat)
      requires AtPrompt()
      modifies this, process
      ensures Model() == S.DoDelete(old(Now()), bpid)
      ensures old(status) != Running || bpid >= |old(bplist)| ==> Model() == Prompt(old(Now()))
    {
      if status != Running || bpid >= |bplist| {
        return;
      }
      var _ := ChangeByte(Plus(base, bplist[bpid].addr), bplist[bpid].ovalue);
      if quit {
        return;
      }
      bplist := bplist[..bpid] + bplist[bpid + 1..];
    }

    method InsSi()
      requires AtPrompt()
      modifies this, process
      ensures Model() == S.DoSi(process.cpu, old(Now()))
    {
      if !process.alive {
        quit := true;
        return;
      }
      StepAndWait();
      Report();
    }

    method InsCont(extra: bool, fuel: nat)
      requires AtPrompt()
      modifies this, process
      ensures Model() == S.DoCont(process.cpu, old(Now()), extra, fuel)
    {
      if !extra && status != Running {
        return;
      }
      if !process.alive {
        quit := true;
        return;
      }
      StepAndWait();
      var bpid := CheckBp();
      if quit {
        return;
      }
      if bpid == -1 {
        ResumeAndWait(fuel);
      } else {
        Report();
      }
    }

    /** PTRACE_CONT and waitpid. */
    method ResumeAndWait(fuel: nat)
      requires AtPrompt() && process.alive
      modifies this, process
      ensures Model() == S.Resume(process.cpu, old(Now()), fuel)
    {
      log := log + [Resumed];
      ghost var s := Now();
      var h := process.Continue(fuel);
      AfterWait(h, s);
    }

    /** What `inscont` does with the answer of the wait; `s` is the state that was resumed. */
    method AfterWait(h: Halt, ghost s: State)
      requires AtPrompt() && Now() == Halted(s, h)
      modifies this, process
      ensures Model() == S.AfterResume(s, h)
    {
      match h
      case AtExit(_) => status := Loaded;
      case Busy(_, _, _) => waiting := true;
      case AtTrap(_, _, _) => Report();
    }

    method Start(image: Image)
      requires AtPrompt()
      modifies this, process
      ensures Model() == S.DoStart(old(Now()), image)
      ensures dynamic == old(dynamic)
      ensures old(status) == Loaded ==> base == if dynamic then image.base else 0
      ensures old(status) != Loaded ==> Model() == Prompt(old(Now()))
    {
      if status != Loaded {
        return;
      }
      process.Launch(image.regs, image.mem);
      status := Running;
      base := if dynamic then image.base else 0;
      PlantAll(image.mem);
      log := log + [Launched];
    }

    /** The loop of `start` over the saved list: patch, and overwrite the saved byte. */
    method PlantAll(ghost m: Mem)
      requires AtPrompt() && process.alive && process.mem == m
      modifies `quit, `bplist, process`mem
      ensures !waiting && quit == S.PlantAll(m, base, old(bplist)).None?
      ensures !quit ==> S.PlantAll(m, base, old(bplist)).value == (process.mem, bplist)
    {
      ghost var saved := bplist;
      FirstPlanted(bplist[..0], S.PlantAll(m, base, saved));
      for i := 0 to |bplist|
        modifies `quit, `bplist, process`mem
        invariant !quit && |bplist| == |saved| && bplist[i..] == saved[i..]
        invariant S.PlantAll(m, base, saved) == After(bplist[..i], S.PlantAll(process.mem, base, saved[i..]))
      {
        ghost var done := bplist[..i];
        assert saved[i..][0] == bplist[i] && saved[i..][1..] == saved[i + 1..];
        var ovalue := ChangeByte(Plus(base, bplist[i].addr), INT3);
        if quit {
          return;
        }
        bplist := bplist[i := bplist[i].(ovalue := ovalue)];
        assert bplist[..i + 1] == done + [bplist[i]] && bplist[i + 1..] == saved[i + 1..];
        NextPlanted(done, bplist[i], S.PlantAll(process.mem, base, saved[i + 1..]));
      }
      assert saved[|saved|..] == [] && bplist[..|saved|] == bplist;
      assert After(bplist[..|saved|], S.PlantAll(process.mem, base, saved[|saved|..]))
          == Some((process.mem, bplist + []));
      assert bplist + [] == bplist;
    }

    method InsRun(extra: bool, image: Image, fuel: nat)
      requires AtPrompt()
      modifies this, process
      ensures Model() == S.DoRun(process.cpu, old(Now()), extra, image, fuel)
    {
      if extra {
        return;
      }
      if status == Running {
        InsCont(false, fuel);
      } else if status == Loaded {
        Start(image);
        if !quit {
          InsCont(false, fuel);
        }
      }
    }

    method InsSet(name: string, value: Word)
      requires AtPrompt()
      modifies this, process
      ensures Model() == S.DoSetReg(old(Now()), name, value)
      ensures old(status).Running? && old(process.alive) ==>
        Editing.OnlySets(old(process.regs), process.regs, name, value) && process.mem == old(process.mem)
    {
      if status != Running {
        return;
      }
      if !process.alive {
        quit := true;
        return;
      }
      regs := process.regs;
      if name == "rip" {
        regs := regs.(rip := value);
      } else if name in REGISTERS {
        regs := regs.(others := regs.others[name := value]);
      } else {
        return;
      }
      process.regs := regs;
    }

    method InsGet(name: string) returns (shown: Option<Word>)
      requires AtPrompt()
      modifies this
      ensures Model() == S.DoGetReg(old(Now()))
      ensures shown == if status.Running? && process.alive then Named(process.regs, name) else None
    {
      shown := None;
      if status != Running {
        return;
      }
      if !process.alive {
        quit := true;
        return;
      }
      regs := process.regs;
      if name == "rip" {
        shown := Some(regs.rip);
      } else if name in REGISTERS && name in regs.others {
        shown := Some(regs.others[name]);
      }
    }

    method InsLoad(parsed: Option<bool>)
      requires AtPrompt()
      modifies this
      ensures Model() == Prompt(S.DoLoad(old(Now()), parsed))
    {
      if status == NotLoaded && parsed.Some? {
        status, dynamic := Loaded, parsed.value;
      }
    }

    /** Five rows of sixteen bytes, each rebuilt from two peeked words. Nothing is shown unless
        the program is running. */
    method InsDump(addr: Addr) returns (shown: seq<bv8>)
      ensures shown == if status.Running? then Dumped(Seen(process.View()), Plus(base, addr), 10) else []
    {
      shown := [];
      if status != Running {
        return;
      }
      var at, words := addr, 0;
      for i := 0 to 5
        invariant words == 2 * i && at == Plus(addr, 8 * words)
        invariant shown == Dumped(Seen(process.View()), Plus(base, addr), words)
      {
        var perRow := 16 / 8;
        var data := DumpRow(Plus(base, at), perRow);
        NextWords(Seen(process.View()), base, addr, words, perRow);
        shown := shown + data;
        at, words := Plus(at, 16), words + perRow;
      }
    }

    /** The inner loop of a row: words into the row's buffer. */
    method DumpRow(at: Addr, words: nat) returns (data: seq<bv8>)
      requires words <= 10
      ensures data == Dumped(Seen(process.View()), at, words)
    {
      data := [];
      for j := 0 to words
        invariant data == Dumped(Seen(process.View()), at, j)
      {
        var word := process.PeekBytes(Plus(at, j * 8));
        data := data + word;
      }
    }

    /** The id and address printed for each breakpoint. */
    method InsList() returns (lines: seq<(nat, Addr)>)
      ensures |lines| == |bplist| && forall i :: 0 <= i < |lines| ==> lines[i] == (i, bplist[i].addr)
    {
      lines := [];
      var bpid := 0;
      while bpid < |bplist|
        invariant |lines| == bpid <= |bplist|
        invariant forall i :: 0 <= i < bpid ==> lines[i] == (i, bplist[i].addr)
      {
        lines := lines + [(bpid, bplist[bpid].addr)];
        bpid := bpid + 1;
      }
    }

    method Execute(cmd: Command)
      requires AtPrompt()
      modifies this, process
      ensures Model() == S.Execute(process.cpu, old(Now()), cmd)
    {
      match cmd
      case Load(parsed) => InsLoad(parsed);
      case Start(image) => Start(image);
      case RunProgram(extra, image, fuel) => InsRun(extra, image, fuel);
      case Break(addr) => InsBreak(addr);
      case Delete(id) => InsDelete(id);
      case Cont(extra, fuel) => InsCont(extra, fuel);
      case Si => InsSi();
      case SetReg(name, value) => InsSet(name, value);
      case GetReg(name) => var _ := InsGet(name);
      case ReadOnly =>
      case Exit => quit := true;
    }

    /** A script: one command after another while the debugger is at its prompt. Every theorem
        about `ExecuteAll` is a theorem about this loop. */
    method ExecuteScript(cmds: seq<Command>)
      modifies this, process
      ensures Model() == S.ExecuteAll(process.cpu, old(Model()), cmds)
    {
      var i := 0;
      while i < |cmds| && !quit && !waiting
        invariant 0 <= i <= |cmds|
        invariant S.ExecuteAll(process.cpu, Model(), cmds[i..]) == S.ExecuteAll(process.cpu, old(Model()), cmds)
      {
        assert cmds[i..][0] == cmds[i] && cmds[i..][1..] == cmds[i + 1..];
        Execute(cmds[i]);
        i := i + 1;
      }
    }
  }
}

/** Breakpoint ids: the list is compared with a ledger that knows no list, only the command at
    which each surviving address was first set. */
module Numbering {
  import opened Tracee
  import opened Sdb
  import opened Instrumented
  import opened Editing
  import opened Restart

  /** The time at which each surviving address was set. */
  type Ledger = map<Addr, nat>

  /** How many surviving addresses were set before `a`. */
  ghost function Rank(ledger: Ledger, a: Addr): nat
    requires a in ledger
  {
    |set x | x in ledger && ledger[x] < ledger[a]|
  }

  /** A break on a new address is recorded with its time; a delete strikes out the address with
      as many elders as its argument says. Nothing counts unless the program is running. */
  ghost function Record(ledger: Ledger, running: bool, time: nat, cmd: Command): Ledger {
    match cmd
    case Break(a) => if running && a !in ledger then ledger[a := time] else ledger
    case Delete(id) => if running then Strike(ledger, id) else ledger
    case _ => ledger
  }

  ghost function Strike(ledger: Ledger, id: nat): Ledger {
    map a | a in ledger && Rank(ledger, a) != id :: ledger[a]
  }

  ghost function RecordAll(cpu: Cpu, session: Session, ledger: Ledger, time: nat, cmds: seq<Command>): Ledger
    decreases |cmds|
  {
    if cmds == [] || !session.Prompt? then ledger
    else
      var s := session.state;
      RecordAll(cpu, Execute(cpu, s, cmds[0]), Record(ledger, s.status.Running?, time, cmds[0]), time + 1, cmds[1..])
  }

  ghost predicate Before(ledger: Ledger, time: nat) {
    forall a :: a in ledger ==> ledger[a] < time
  }

  /** The list is the ledger in order of time. */
  ghost predicate Lists(bps: seq<Bp>, ledger: Ledger) {
    && (forall i :: 0 <= i < |bps| ==> bps[i].addr in ledger)
    && (forall a :: a in ledger ==> exists i :: 0 <= i < |bps| && bps[i].addr == a)
    && (forall i, j :: 0 <= i < j < |bps| ==> ledger[bps[i].addr] < ledger[bps[j].addr])
  }

  function AddrsBelow(bps: seq<Bp>, n: nat): set<Addr>
    requires n <= |bps|
  {
    set i | 0 <= i < n :: bps[i].addr
  }

  lemma {:induction false} AddrsCount(bps: seq<Bp>, n: nat)
    requires NoDup(bps) && n <= |bps|
    ensures |AddrsBelow(bps, n)| == n
    decreases n
  {
    if n > 0 {
      AddrsCount(bps, n - 1);
      assert AddrsBelow(bps, n) == AddrsBelow(bps, n - 1) + {bps[n - 1].addr};
      assert bps[n - 1].addr !in AddrsBelow(bps, n - 1);
    } else {
      assert AddrsBelow(bps, n) == {};
    }
  }

  lemma ListsNoDup(bps: seq<Bp>, ledger: Ledger)
    requires Lists(bps, ledger)
    ensures NoDup(bps)
  {
  }

  /** An id is the number of survivors set earlier. */
  lemma IdIsRank(bps: seq<Bp>, ledger: Ledger, i: nat)
    requires Lists(bps, ledger) && i < |bps|
    ensures Rank(ledger, bps[i].addr) == i
  {
    var a := bps[i].addr;
    var elders := set x | x in ledger && ledger[x] < ledger[a];
    forall x
      ensures x in elders <==> x in AddrsBelow(bps, i)
    {
      if x in elders {
        var j :| 0 <= j < |bps| && bps[j].addr == x;
        assert j < i;
      }
    }
    assert elders == AddrsBelow(bps, i);
    AddrsCount(bps, i);
  }

  lemma RankIsId(bps: seq<Bp>, ledger: Ledger, id: nat)
    requires Lists(bps, ledger)
    ensures forall a :: a in ledger ==> (Rank(ledger, a) == id <==> id < |bps| && bps[id].addr == a)
  {
    forall a | a in ledger
      ensures Rank(ledger, a) == id <==> id < |bps| && bps[id].addr == a
    {
      var i :| 0 <= i < |bps| && bps[i].addr == a;
      IdIsRank(bps, ledger, i);
      if id < |bps| { IdIsRank(bps, ledger, id); }
    }
  }

  // ---------------------------------------------------------------- what commands do to the list

  ghost predicate SameAddrs(bps: seq<Bp>, bps': seq<Bp>) {
    |bps| == |bps'| && forall i :: 0 <= i < |bps| ==> bps[i].addr == bps'[i].addr
  }

  lemma ReportKeeps(s: State)
    ensures Report(s).Prompt? ==> Report(s).state.bps == s.bps
  {
  }

  lemma AfterResumeKeeps(s: State, h: Halt)
    ensures AfterResume(s, h).Prompt? ==> AfterResume(s, h).state.bps == s.bps
  {
    if h.AtTrap? { ReportKeeps(s.(proc := Live(h.regs, h.mem), retired := s.retired + h.steps)); }
  }

  lemma ContKeeps(cpu: Cpu, s: State, extra: bool, fuel: nat)
    ensures var out := DoCont(cpu, s, extra, fuel); out.Prompt? ==> out.state.bps == s.bps
  {
    if s.proc.Live? {
      var checked := CheckBp(StepTracee(cpu, s));
      if checked.Some? {
        var s2 := checked.value.0;
        ReportKeeps(s2);
        if s2.proc.Live? {
          AfterResumeKeeps(s2.(log := s2.log + [Resumed]), RunFree(cpu, s2.proc.regs, s2.proc.mem, fuel));
        }
      }
    }
  }

  lemma StartKeeps(s: State, image: Image)
    ensures var out := DoStart(s, image); out.Prompt? ==> SameAddrs(s.bps, out.state.bps)
  {
    PlantAllKeepsAddresses(image.mem, if s.dynamic then image.base else 0, s.bps);
  }

  /** Only `break` and `delete` change which addresses are listed. */
  lemma OthersKeep(cpu: Cpu, s: State, cmd: Command)
    requires !cmd.Break? && !cmd.Delete?
    ensures var out := Execute(cpu, s, cmd); out.Prompt? ==> SameAddrs(s.bps, out.state.bps)
  {
    match cmd
    case Si => if s.proc.Live? { ReportKeeps(StepTracee(cpu, s)); }
    case Cont(extra, fuel) => ContKeeps(cpu, s, extra, fuel);
    case Start(image) => StartKeeps(s, image);
    case RunProgram(_, image, fuel) =>
      StartKeeps(s, image);
      ContKeeps(cpu, s, false, fuel);
      if DoStart(s, image).Prompt? { ContKeeps(cpu, DoStart(s, image).state, false, fuel); }
    case _ =>
  }

  // ---------------------------------------------------------------- the ledger is kept

  lemma BreakLists(s: State, ledger: Ledger, time: nat, addr: Addr)
    requires Lists(s.bps, ledger) && Before(ledger, time)
    ensures var ledger' := Record(ledger, s.status.Running?, time, Break(addr));
      var out := DoBreak(s, addr);
      out.Prompt? ==> Lists(out.state.bps, ledger') && Before(ledger', time + 1)
  {
    var out := DoBreak(s, addr);
    if out.Prompt? && s.status.Running? && addr !in ledger {
      SnocLists(s.bps, ledger, time, out.state.bps[|s.bps|]);
    }
  }

  lemma SnocLists(bps: seq<Bp>, ledger: Ledger, time: nat, bp: Bp)
    requires Lists(bps, ledger) && Before(ledger, time) && bp.addr !in ledger
    ensures Lists(bps + [bp], ledger[bp.addr := time])
  {
    var bps', ledger' := bps + [bp], ledger[bp.addr := time];
    forall i | 0 <= i < |bps|
      ensures bps'[i] == bps[i] && bps[i].addr != bp.addr
    {
    }
    forall a: Addr | a in ledger'
      ensures exists i :: 0 <= i < |bps'| && bps'[i].addr == a
    {
      if a == bp.addr {
        assert bps'[|bps|].addr == a;
      } else {
        var i :| 0 <= i < |bps| && bps[i].addr == a;
        assert bps'[i].addr == a;
      }
    }
  }

  lemma DeleteLists(s: State, ledger: Ledger, time: nat, id: nat, out: Session, ledger': Ledger)
    requires Lists(s.bps, ledger) && Before(ledger, time)
    requires out == DoDelete(s, id) && out.Prompt?
    requires ledger' == if s.status.Running? then Strike(ledger, id) else ledger
    ensures Lists(out.state.bps, ledger') && Before(ledger', time + 1)
  {
    DeleteList(s, id);
    if s.status.Running? { StruckLists(s.bps, out.state.bps, ledger, time, id); }
  }

  lemma StruckLists(bps: seq<Bp>, rest: seq<Bp>, ledger: Ledger, time: nat, id: nat)
    requires Lists(bps, ledger) && Before(ledger, time)
    requires rest == if id < |bps| then Without(bps, id) else bps
    ensures Lists(rest, Strike(ledger, id)) && Before(Strike(ledger, id), time + 1)
  {
    if id < |bps| {
      StrikeLists(bps, rest, ledger, id);
    } else {
      StrikeNone(bps, ledger, id);
    }
    StruckBefore(ledger, time, id);
  }

  lemma StruckBefore(ledger: Ledger, time: nat, id: nat)
    requires Before(ledger, time)
    ensures Before(Strike(ledger, id), time + 1)
  {
  }

  lemma DeleteList(s: State, id: nat)
    ensures var out := DoDelete(s, id);
      out.Prompt? ==> out.state.bps == if s.status.Running? && id < |s.bps| then Without(s.bps, id) else s.bps
  {
  }

  lemma StrikeNone(bps: seq<Bp>, ledger: Ledger, id: nat)
    requires Lists(bps, ledger) && id >= |bps|
    ensures Strike(ledger, id) == ledger
  {
    RankIsId(bps, ledger, id);
  }

  lemma StrikeOne(bps: seq<Bp>, ledger: Ledger, id: nat)
    requires Lists(bps, ledger) && id < |bps|
    ensures Strike(ledger, id) == map a | a in ledger && a != bps[id].addr :: ledger[a]
  {
    RankIsId(bps, ledger, id);
  }

  lemma StrikeLists(bps: seq<Bp>, rest: seq<Bp>, ledger: Ledger, id: nat)
    requires Lists(bps, ledger) && id < |bps| && rest == Without(bps, id)
    ensures Lists(rest, Strike(ledger, id))
  {
    StrikeOne(bps, ledger, id);
    WithoutDrops(bps, id);
    DropsLists(bps, rest, ledger, Strike(ledger, id), id);
  }

  lemma DropsLists(bps: seq<Bp>, rest: seq<Bp>, ledger: Ledger, ledger': Ledger, id: nat)
    requires Lists(bps, ledger) && Drops(bps, rest, id)
    requires ledger' == map a | a in ledger && a != bps[id].addr :: ledger[a]
    ensures Lists(rest, ledger')
  {
    DropsSorted(bps, rest, ledger, id);
    forall a | a in ledger'
      ensures exists i :: 0 <= i < |rest| && rest[i].addr == a
    {
      DropsFinds(bps, rest, ledger, id, a);
    }
  }

  lemma DropsFinds(bps: seq<Bp>, rest: seq<Bp>, ledger: Ledger, id: nat, a: Addr)
    requires Lists(bps, ledger) && Drops(bps, rest, id) && a in ledger && a != bps[id].addr
    ensures exists i :: 0 <= i < |rest| && rest[i].addr == a
  {
    var i :| 0 <= i < |bps| && bps[i].addr == a;
    var k := if i < id then i else i - 1;
    assert rest[k] == bps[Former(id, k)];
  }

  lemma DropsSorted(bps: seq<Bp>, rest: seq<Bp>, ledger: Ledger, id: nat)
    requires Lists(bps, ledger) && Drops(bps, rest, id)
    ensures forall i :: 0 <= i < |rest| ==> rest[i].addr in ledger && rest[i].addr != bps[id].addr
    ensures forall i, j :: 0 <= i < j < |rest| ==> ledger[rest[i].addr] < ledger[rest[j].addr]
  {
  }

  lemma CommandLists(cpu: Cpu, s: State, ledger: Ledger, time: nat, cmd: Command)
    requires Lists(s.bps, ledger) && Before(ledger, time)
    ensures var ledger' := Record(ledger, s.status.Running?, time, cmd);
      var out := Execute(cpu, s, cmd);
      out.Prompt? ==> Lists(out.state.bps, ledger') && Before(ledger', time + 1)
  {
    if cmd.Break? {
      BreakLists(s, ledger, time, cmd.addr);
    } else if cmd.Delete? {
      var out := DoDelete(s, cmd.id);
      if out.Prompt? { DeleteLists(s, ledger, time, cmd.id, out, Record(ledger, s.status.Running?, time, cmd)); }
    } else {
      OthersList(cpu, s, ledger, cmd);
    }
  }

  lemma OthersList(cpu: Cpu, s: State, ledger: Ledger, cmd: Command)
    requires Lists(s.bps, ledger) && !cmd.Break? && !cmd.Delete?
    ensures var out := Execute(cpu, s, cmd); out.Prompt? ==> Lists(out.state.bps, ledger)
  {
    OthersKeep(cpu, s, cmd);
    var out := Execute(cpu, s, cmd);
    if out.Prompt? { SameAddrsLists(s.bps, out.state.bps, ledger); }
  }

  lemma SameAddrsLists(bps: seq<Bp>, bps': seq<Bp>, ledger: Ledger)
    requires SameAddrs(bps, bps') && Lists(bps, ledger)
    ensures Lists(bps', ledger)
  {
  }

  /** Over every session, restarts included: the list is the surviving addresses, each once, in
      the order they were set, so the id that is listed, reported and deleted is the number of
      survivors set earlier. */
  lemma {:induction false} IdsTrackSurvivors(cpu: Cpu, s: State, ledger: Ledger, time: nat, cmds: seq<Command>)
    requires Lists(s.bps, ledger) && Before(ledger, time)
    ensures var out := ExecuteAll(cpu, Prompt(s), cmds);
      var ledger' := RecordAll(cpu, Prompt(s), ledger, time, cmds);
      out.Prompt? ==>
        && Lists(out.state.bps, ledger') && NoDup(out.state.bps)
        && forall i :: 0 <= i < |out.state.bps| ==> Rank(ledger', out.state.bps[i].addr) == i
    decreases |cmds|
  {
    if cmds == [] {
      ListsNoDup(s.bps, ledger);
      forall i: nat | i < |s.bps| ensures Rank(ledger, s.bps[i].addr) == i { IdIsRank(s.bps, ledger, i); }
    } else {
      CommandLists(cpu, s, ledger, time, cmds[0]);
      var out := Execute(cpu, s, cmds[0]);
      if out.Prompt? {
        IdsTrackSurvivors(cpu, out.state, Record(ledger, s.status.Running?, time, cmds[0]), time + 1, cmds[1..]);
      }
    }
  }

  /** In particular over every session of a new debugger. */
  lemma IdsFromTheStart(cpu: Cpu, regs: Regs, cmds: seq<Command>)
    ensures var start := Prompt(NewState(regs));
      var out, ledger := ExecuteAll(cpu, start, cmds), RecordAll(cpu, start, map[], 0, cmds);
      out.Prompt? ==>
        && Lists(out.state.bps, ledger) && NoDup(out.state.bps)
        && forall i :: 0 <= i < |out.state.bps| ==> Rank(ledger, out.state.bps[i].addr) == i
  {
    IdsTrackSurvivors(cpu, NewState(regs), map[], 0, cmds);
  }
}

/** The commands that change what is planted: `break`, `delete`, `set`, and `start`. */
module Editing {
  import opened Tracee
  import opened Sdb
  import opened Instrumented
  import opened Simulation
  import opened Stepping

  /** Every breakpoint disarmed in `s'` was planted, and disarmed, in `s`. */
  ghost predicate KeepsArmed(s: State, s': State) {
    && s.proc.Live? && s'.proc.Live?
    && forall i :: 0 <= i < |s'.bps| && !IsArmed(s'.proc.mem, Loc(s'.base, s'.bps[i])) ==>
         Loc(s'.base, s'.bps[i]) in Locs(s.base, s.bps) && !IsArmed(s.proc.mem, Loc(s'.base, s'.bps[i]))
  }

  // ---------------------------------------------------------------- break

  lemma BreakKnown(s: State, addr: Addr)
    requires exists i :: 0 <= i < |s.bps| && s.bps[i].addr == addr
    ensures SetBreak(s, addr) == Some(s)
  {
  }

  /** A new breakpoint joins the end of the list, armed, with the clean byte saved; the program
      underneath is unchanged. The command is fatal only when the word cannot be read. */
  lemma BreakEffect(s: State, c: Undebugged, addr: Addr)
    requires Tracks(s, c) && forall i :: 0 <= i < |s.bps| ==> s.bps[i].addr != addr
    ensures var a := Plus(s.base, addr);
      if Readable(c.mem, a) then
        && DoBreak(s, addr).Prompt?
        && var s' := DoBreak(s, addr).state;
        && s' == s.(bps := s.bps + [Bp(addr, c.mem[a])], proc := Live(s.proc.regs, s.proc.mem[a := INT3]))
        && Tracks(s', c) && KeepsArmed(s, s')
      else DoBreak(s, addr) == Quit
  {
    var a := Plus(s.base, addr);
    if Readable(c.mem, a) {
      var bps' := s.bps + [Bp(addr, c.mem[a])];
      AppendPlanted(s.base, s.bps, bps', s.proc.mem, c.mem, addr);
      AppendArmed(s.base, s.bps, bps', s.proc.mem, c.mem, addr);
      AppendLocs(s.base, s.bps, bps', c.mem, addr);
    }
  }

  /** `bps'` is `bps` with a new breakpoint at `addr` after it. */
  ghost predicate Appends(base: Addr, bps: seq<Bp>, bps': seq<Bp>, clean: Mem, addr: Addr) {
    && Readable(clean, Plus(base, addr)) && |bps'| == |bps| + 1
    && (forall i :: 0 <= i < |bps| ==> bps'[i] == bps[i] && bps[i].addr != addr)
    && bps'[|bps|] == Bp(addr, clean[Plus(base, addr)])
  }

  lemma AppendLocs(base: Addr, bps: seq<Bp>, bps': seq<Bp>, clean: Mem, addr: Addr)
    requires NoDup(bps) && Appends(base, bps, bps', clean, addr)
    ensures NoDup(bps') && Locs(base, bps') == Locs(base, bps) + {Plus(base, addr)}
    ensures Plus(base, addr) !in Locs(base, bps)
  {
  }

  lemma AppendPlanted(base: Addr, bps: seq<Bp>, bps': seq<Bp>, m: Mem, clean: Mem, addr: Addr)
    requires NoDup(bps) && Planted(base, bps, m, clean) && Appends(base, bps, bps', clean, addr)
    ensures var a := Plus(base, addr);
      m[a] == clean[a] && Planted(base, bps', m[a := INT3], clean)
  {
  }

  lemma AppendArmed(base: Addr, bps: seq<Bp>, bps': seq<Bp>, m: Mem, clean: Mem, addr: Addr)
    requires NoDup(bps) && OneOpen(base, bps, m) && Appends(base, bps, bps', clean, addr)
    ensures var m' := m[Plus(base, addr) := INT3];
      && OneOpen(base, bps', m')
      && forall i :: 0 <= i < |bps'| && !IsArmed(m', Loc(base, bps'[i])) ==>
           Loc(base, bps'[i]) in Locs(base, bps) && !IsArmed(m, Loc(base, bps'[i]))
  {
  }

  lemma LocsSnoc(base: Addr, bps: seq<Bp>, bp: Bp)
    ensures Locs(base, bps + [bp]) == Locs(base, bps) + {Loc(base, bp)}
  {
    var bps' := bps + [bp];
    assert forall i :: 0 <= i < |bps| ==> bps'[i] == bps[i];
    assert bps'[|bps|] == bp;
  }

  // ---------------------------------------------------------------- delete

  function Without(bps: seq<Bp>, id: nat): seq<Bp>
    requires id < |bps|
  {
    bps[..id] + bps[id + 1..]
  }

  /** Where a survivor of deleting `id` was before. */
  function Former(id: nat, i: nat): nat { if i < id then i else i + 1 }

  ghost predicate Drops(bps: seq<Bp>, rest: seq<Bp>, id: nat) {
    id < |bps| == |rest| + 1 && forall i: nat :: i < |rest| ==> rest[i] == bps[Former(id, i)]
  }

  lemma WithoutDrops(bps: seq<Bp>, id: nat)
    requires id < |bps|
    ensures Drops(bps, Without(bps, id), id)
  {
  }

  lemma LocsWithout(base: Addr, bps: seq<Bp>, id: nat)
    requires NoDup(bps) && id < |bps|
    ensures NoDup(Without(bps, id))
    ensures Locs(base, Without(bps, id)) == Locs(base, bps) - {Loc(base, bps[id])}
  {
    WithoutDrops(bps, id);
    LocsDropped(base, bps, Without(bps, id), id);
  }

  lemma LocsDropped(base: Addr, bps: seq<Bp>, rest: seq<Bp>, id: nat)
    requires NoDup(bps) && Drops(bps, rest, id)
    ensures NoDup(rest)
    ensures Locs(base, rest) == Locs(base, bps) - {Loc(base, bps[id])}
  {
    forall i: nat | i < |rest|
      ensures rest[i] == bps[Former(id, i)] && Loc(base, rest[i]) != Loc(base, bps[id])
    {
      LocsDistinct(base, bps, Former(id, i), id);
    }
    forall a | a in Locs(base, bps) && a != Loc(base, bps[id])
      ensures a in Locs(base, rest)
    {
      var i: nat :| i < |bps| && a == Loc(base, bps[i]);
      var k := if i < id then i else i - 1;
      assert rest[k] == bps[Former(id, k)] && Former(id, k) == i;
    }
  }

  /** Deleting breakpoint `id` gives its byte back, drops it from the list without disturbing
      the others or their order, and is never fatal. */
  lemma DeleteEffect(s: State, c: Undebugged, id: nat)
    requires Tracks(s, c) && id < |s.bps|
    ensures DoDelete(s, id).Prompt?
    ensures var a := Loc(s.base, s.bps[id]);
      var s' := DoDelete(s, id).state;
      && s' == s.(bps := Without(s.bps, id), proc := Live(s.proc.regs, s.proc.mem[a := c.mem[a]]))
      && Tracks(s', c) && KeepsArmed(s, s')
  {
    UnplantOne(s.base, s.bps, s.proc.mem, c.mem, id);
  }

  lemma UnplantOne(base: Addr, bps: seq<Bp>, m: Mem, clean: Mem, id: nat)
    requires NoDup(bps) && Planted(base, bps, m, clean) && OneOpen(base, bps, m) && id < |bps|
    ensures var a := Loc(base, bps[id]);
      var rest, m' := Without(bps, id), m[a := clean[a]];
      && NoDup(rest) && Planted(base, rest, m', clean) && OneOpen(base, rest, m')
      && forall i :: 0 <= i < |rest| && !IsArmed(m', Loc(base, rest[i])) ==>
           Loc(base, rest[i]) in Locs(base, bps) && !IsArmed(m, Loc(base, rest[i]))
  {
    var a, rest := Loc(base, bps[id]), Without(bps, id);
    var m' := m[a := clean[a]];
    LocsWithout(base, bps, id);
    forall i | 0 <= i < |rest|
      ensures var j := if i < id then i else i + 1;
        rest[i] == bps[j] && Loc(base, rest[i]) != a
        && (IsArmed(m', Loc(base, rest[i])) <==> IsArmed(m, Loc(base, bps[j])))
    {
      LocsDistinct(base, bps, if i < id then i else i + 1, id);
    }
    UnplantedOpen(base, bps, m, m', id);
  }

  lemma UnplantedOpen(base: Addr, bps: seq<Bp>, m: Mem, m': Mem, id: nat)
    requires id < |bps| && OneOpen(base, bps, m)
    requires forall i :: 0 <= i < |Without(bps, id)| ==>
      var j := if i < id then i else i + 1;
      Without(bps, id)[i] == bps[j] && (IsArmed(m', Loc(base, bps[j])) <==> IsArmed(m, Loc(base, bps[j])))
    ensures OneOpen(base, Without(bps, id), m')
  {
  }

  // ---------------------------------------------------------------- set

  /** The same register assignment made to the undebugged program. */
  function Assigned(c: Undebugged, name: string, value: Word): Undebugged {
    match c
    case Dead => Dead
    case Alive(r, m) => Alive(Assign(r, name, value), m)
  }

  /** The names `set` and `get` know besides `rip`. */
  lemma KnownRegisters(name: string)
    ensures name in REGISTERS <==>
      name in ["rax", "rbx", "rcx", "rdx", "r8", "r9", "r10", "r11", "r12", "r13", "r14", "r15",
               "rdi", "rsi", "rbp", "rsp", "flags"]
  {
  }

  /** `r'` is `r` with the named register, and no other, given the value; a name that is unknown
      changes nothing. */
  ghost predicate OnlySets(r: Regs, r': Regs, name: string, value: Word) {
    && r'.rip == (if name == "rip" then value else r.rip)
    && (name != "rip" && name in REGISTERS ==> name in r'.others && r'.others[name] == value)
    && (forall n :: n != name || name == "rip" || name !in REGISTERS ==>
          (n in r'.others <==> n in r.others) && (n in r.others ==> r'.others[n] == r.others[n]))
  }

  /** `set` assigns the register it names in the stopped process and in the debugger's copy, and
      changes nothing else at all. */
  lemma SetAssigns(s: State, name: string, value: Word)
    requires s.status.Running? && s.proc.Live?
    ensures DoSetReg(s, name, value).Prompt?
    ensures var s' := DoSetReg(s, name, value).state;
      && s'.proc.Live? && OnlySets(s.proc.regs, s'.proc.regs, name, value)
      && s' == s.(saved := s'.proc.regs, proc := Live(s'.proc.regs, s.proc.mem))
  {
  }

  /** `get` after `set` shows the value for a name it knows, and every other name as before. */
  lemma SetThenGet(s: State, name: string, value: Word, other: string)
    requires s.status.Running? && s.proc.Live?
    ensures var s1 := DoSetReg(s, name, value).state;
      && DoGetReg(s1) == Prompt(s1)
      && (name == "rip" || name in REGISTERS ==> Named(s1.saved, name) == Some(value))
      && (name != "rip" && name !in REGISTERS ==> Named(s1.saved, name) == None)
      && (other != name ==> Named(s1.saved, other) == Named(s.proc.regs, other))
  {
    SetAssigns(s, name, value);
  }

  /** `get` only refreshes the debugger's copy of the registers. */
  lemma GetRefreshes(s: State)
    requires s.status.Running? && s.proc.Live?
    ensures DoGetReg(s) == Prompt(s.(saved := s.proc.regs))
  {
  }

  /** The undebugged program gets the same assignment. */
  lemma SetEffect(s: State, c: Undebugged, name: string, value: Word)
    requires Tracks(s, c)
    ensures DoSetReg(s, name, value).Prompt?
    ensures var s', c' := DoSetReg(s, name, value).state, Assigned(c, name, value);
      && SameSetup(s, s') && Tracks(s', c') && KeepsArmed(s, s')
      && s'.retired == s.retired && s'.log == s.log
      && OnlySets(c.regs, c'.regs, name, value) && c'.mem == c.mem
  {
    SetAssigns(s, name, value);
  }

  // ---------------------------------------------------------------- start

  ghost predicate PlantsFresh(m: Mem, base: Addr, bps: seq<Bp>, out: Option<(Mem, seq<Bp>)>) {
    && (out.Some? <==> AllReadable(base, bps, m))
    && (out.Some? ==> out.value.0 == Armed(m, Locs(base, bps)) && |out.value.1| == |bps|)
    && (out.Some? ==> forall i :: 0 <= i < |bps| ==>
          Loc(base, bps[i]) in m && out.value.1[i] == Bp(bps[i].addr, m[Loc(base, bps[i])]))
  }

  /** The loop of `start` saves the image's own bytes because no address occurs twice. */
  lemma {:induction false} PlantAllEffect(m: Mem, base: Addr, bps: seq<Bp>)
    requires NoDup(bps)
    ensures PlantsFresh(m, base, bps, PlantAll(m, base, bps))
    decreases |bps|
  {
    if bps == [] {
      assert Armed(m, Locs(base, bps)) == m;
    } else {
      var a, rest := Loc(base, bps[0]), bps[1..];
      if Readable(m, a) {
        PlantAllEffect(m[a := INT3], base, rest);
        PlantsCons(m, base, bps, PlantAll(m[a := INT3], base, rest), PlantAll(m, base, bps));
      }
    }
  }

  lemma PlantsCons(m: Mem, base: Addr, bps: seq<Bp>, next: Option<(Mem, seq<Bp>)>, out: Option<(Mem, seq<Bp>)>)
    requires NoDup(bps) && bps != [] && Readable(m, Loc(base, bps[0]))
    requires PlantsFresh(m[Loc(base, bps[0]) := INT3], base, bps[1..], next)
    requires out == match next
      case None => None
      case Some((m', rest)) => Some((m', [bps[0].(ovalue := m[Loc(base, bps[0])])] + rest))
    ensures PlantsFresh(m, base, bps, out)
  {
    var a, rest := Loc(base, bps[0]), bps[1..];
    var m1 := m[a := INT3];
    LocsCons(base, bps);
    ReadableCons(base, bps, m, m1);
    assert Armed(m1, Locs(base, rest)) == Armed(m, Locs(base, bps));
    forall i | 1 <= i < |bps|
      ensures bps[i] == rest[i - 1] && Loc(base, bps[i]) != a
    {
      LocsDistinct(base, bps, i, 0);
    }
  }

  /** A (re)start plants every saved breakpoint in the new image, whatever its load base, saves
      the new image's bytes, and keeps the list of addresses; it is fatal only when one of
      the words cannot be read. */
  lemma StartEffect(s: State, image: Image)
    requires s.status.Loaded? && NoDup(s.bps)
    ensures var base := if s.dynamic then image.base else 0;
      if AllReadable(base, s.bps, image.mem) then
        && DoStart(s, image).Prompt?
        && var s' := DoStart(s, image).state;
        && Tracks(s', Alive(image.regs, image.mem)) && FullyArmed(s')
        && s'.base == base && s'.dynamic == s.dynamic && s'.saved == s.saved
        && s'.retired == s.retired && s'.log == s.log + [Launched]
        && |s'.bps| == |s.bps| && forall i :: 0 <= i < |s.bps| ==> s'.bps[i].addr == s.bps[i].addr
      else DoStart(s, image) == Quit
  {
    var base := if s.dynamic then image.base else 0;
    PlantAllEffect(image.mem, base, s.bps);
    if AllReadable(base, s.bps, image.mem) {
      var (m, bps) := PlantAll(image.mem, base, s.bps).value;
      FreshlyPlanted(image.mem, base, s.bps, m, bps);
    }
  }

  lemma FreshlyPlanted(clean: Mem, base: Addr, saved: seq<Bp>, m: Mem, bps: seq<Bp>)
    requires NoDup(saved) && AllReadable(base, saved, clean) && PlantsFresh(clean, base, saved, Some((m, bps)))
    ensures NoDup(bps) && Planted(base, bps, m, clean) && AllArmed(base, bps, m) && OneOpen(base, bps, m)
  {
  }

  lemma SameAddresses(base: Addr, bps: seq<Bp>, bps': seq<Bp>)
    requires |bps| == |bps'| && forall i :: 0 <= i < |bps| ==> bps'[i].addr == bps[i].addr
    ensures Locs(base, bps) == Locs(base, bps')
  {
  }
}

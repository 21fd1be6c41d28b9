/** What it means for a process to carry breakpoints: how its memory relates to the memory
    of the same program without a debugger, and what the patching loops do to that relation. */
module Instrumented {
  import opened Tracee
  import opened Sdb

  ghost predicate NoDup(bps: seq<Bp>) {
    forall i, j :: 0 <= i < j < |bps| ==> bps[i].addr != bps[j].addr
  }

  ghost function Locs(base: Addr, bps: seq<Bp>): set<Addr> {
    set i | 0 <= i < |bps| :: Loc(base, bps[i])
  }

  ghost predicate AllReadable(base: Addr, bps: seq<Bp>, m: Mem) {
    forall i :: 0 <= i < |bps| ==> Readable(m, Loc(base, bps[i]))
  }

  ghost predicate IsArmed(m: Mem, a: Addr) { a in m && m[a] == INT3 }

  ghost predicate AllArmed(base: Addr, bps: seq<Bp>, m: Mem) {
    forall i :: 0 <= i < |bps| ==> IsArmed(m, Loc(base, bps[i]))
  }

  ghost predicate OneOpen(base: Addr, bps: seq<Bp>, m: Mem) {
    forall i, j :: 0 <= i < |bps| && 0 <= j < |bps| && !IsArmed(m, Loc(base, bps[i])) && !IsArmed(m, Loc(base, bps[j]))
      ==> i == j
  }

  /** Away from `at` memory is clean, and at `at` it is clean or the breakpoint byte. */
  ghost predicate DiffersOnlyAt(m: Mem, clean: Mem, at: set<Addr>) {
    m.Keys == clean.Keys && forall a :: a in m ==> m[a] == clean[a] || (a in at && m[a] == INT3)
  }

  /** Every saved byte is the clean byte. */
  ghost predicate Saved(base: Addr, bps: seq<Bp>, clean: Mem) {
    forall i :: 0 <= i < |bps| ==> Loc(base, bps[i]) in clean && bps[i].ovalue == clean[Loc(base, bps[i])]
  }

  /** The memory invariant: every saved byte is the clean byte, every patched byte is the
      breakpoint byte or the clean byte, and every other byte is clean. */
  ghost predicate Planted(base: Addr, bps: seq<Bp>, m: Mem, clean: Mem) {
    && AllReadable(base, bps, m)
    && Saved(base, bps, clean)
    && DiffersOnlyAt(m, clean, Locs(base, bps))
  }

  lemma LocsDistinct(base: Addr, bps: seq<Bp>, i: nat, j: nat)
    requires NoDup(bps) && i < |bps| && j < |bps|
    ensures Loc(base, bps[i]) == Loc(base, bps[j]) <==> i == j
  {
  }

  lemma LocsCons(base: Addr, bps: seq<Bp>)
    requires bps != []
    ensures Locs(base, bps) == {Loc(base, bps[0])} + Locs(base, bps[1..])
  {
  }

  lemma ReadableCons(base: Addr, bps: seq<Bp>, m: Mem, m': Mem)
    requires bps != [] && m.Keys == m'.Keys
    ensures AllReadable(base, bps, m) <==> Readable(m, Loc(base, bps[0])) && AllReadable(base, bps[1..], m')
  {
  }

  // ---------------------------------------------------------------- the re-arming loop

  /** Memory with the breakpoint byte at every one of a set of addresses. */
  ghost function Armed(m: Mem, at: set<Addr>): Mem {
    map a | a in m :: if a in at then INT3 else m[a]
  }

  /** The loop succeeds exactly when every word can be read, and then it has set every
      breakpoint and touched nothing else. */
  lemma {:induction false} ArmAllEffect(m: Mem, base: Addr, bps: seq<Bp>)
    ensures ArmAll(m, base, bps) == if AllReadable(base, bps, m) then Some(Armed(m, Locs(base, bps))) else None
    decreases |bps|
  {
    if bps == [] {
      assert Armed(m, Locs(base, bps)) == m;
    } else {
      var a := Loc(base, bps[0]);
      LocsCons(base, bps);
      if Readable(m, a) {
        var m1 := m[a := INT3];
        ArmAllEffect(m1, base, bps[1..]);
        assert Armed(m1, Locs(base, bps[1..])) == Armed(m, Locs(base, bps));
        ReadableCons(base, bps, m, m1);
      }
    }
  }

  /** Re-arming does not depend on the order of the list, overlapping words included. */
  lemma ArmOrderIrrelevant(m: Mem, base: Addr, bps: seq<Bp>, bps': seq<Bp>)
    requires multiset(bps) == multiset(bps')
    ensures ArmAll(m, base, bps) == ArmAll(m, base, bps')
  {
    ArmAllEffect(m, base, bps);
    ArmAllEffect(m, base, bps');
    SameLocs(m, base, bps, bps');
    SameLocs(m, base, bps', bps);
    assert Locs(base, bps) == Locs(base, bps');
  }

  lemma SameLocs(m: Mem, base: Addr, bps: seq<Bp>, bps': seq<Bp>)
    requires multiset(bps) == multiset(bps')
    ensures Locs(base, bps) <= Locs(base, bps')
    ensures AllReadable(base, bps', m) ==> AllReadable(base, bps, m)
  {
    forall i | 0 <= i < |bps|
      ensures exists j :: 0 <= j < |bps'| && bps'[j] == bps[i]
    {
      assert bps[i] in multiset(bps');
    }
  }

  // ---------------------------------------------------------------- checkbp and restore

  /** Does stopping at this `rip` follow breakpoint `i`'s own int3? */
  ghost predicate JustHit(s: State, i: nat)
    requires s.proc.Live?
  {
    && i < |s.bps|
    && Loc(s.base, s.bps[i]) == Prev(s.proc.regs.rip)
    && IsArmed(s.proc.mem, Loc(s.base, s.bps[i]))
  }

  lemma CheckBpEffect(s: State, clean: Mem)
    requires s.proc.Live? && NoDup(s.bps) && Planted(s.base, s.bps, s.proc.mem, clean)
    ensures CheckBp(s).Some?
    ensures var (s', hit) := CheckBp(s).value;
      && s'.proc.Live?
      && s' == s.(saved := s.proc.regs, proc := Live(s.proc.regs, s'.proc.mem), log := s.log + [Rearmed])
      && Planted(s.base, s.bps, s'.proc.mem, clean) && AllArmed(s.base, s.bps, s'.proc.mem)
      && (forall i: nat :: hit == Some(i) <==> JustHit(s, i))
  {
    var m, a := s.proc.mem, Prev(s.proc.regs.rip);
    ArmAllEffect(m, s.base, s.bps);
    var m' := Armed(m, Locs(s.base, s.bps));
    assert Planted(s.base, s.bps, m', clean);
    forall i: nat
      ensures CheckBp(s).value.1 == Some(i) <==> JustHit(s, i)
    {
      if i < |s.bps| && Loc(s.base, s.bps[i]) == a {
        var found := Find(s.bps, s.base, a);
        assert found.Some?;
        LocsDistinct(s.base, s.bps, i, found.value);
      }
    }
  }

  lemma RestoreEffect(s: State, id: nat, clean: Mem)
    requires s.proc.Live? && NoDup(s.bps) && Planted(s.base, s.bps, s.proc.mem, clean)
    requires id < |s.bps| && AllArmed(s.base, s.bps, s.proc.mem)
    ensures Restore(s, id).Some?
    ensures var s' := Restore(s, id).value;
      var a := Loc(s.base, s.bps[id]);
      && s'.proc.Live?
      && s' == s.(saved := s'.proc.regs, proc := s'.proc, log := s.log + [Hit(id, a)])
      && s'.proc.regs == s.proc.regs.(rip := Prev(s.proc.regs.rip))
      && s'.proc.mem == s.proc.mem[a := clean[a]]
      && Planted(s.base, s.bps, s'.proc.mem, clean)
      && (forall i :: 0 <= i < |s.bps| && i != id ==> IsArmed(s'.proc.mem, Loc(s.base, s.bps[i])))
  {
    var a := Loc(s.base, s.bps[id]);
    assert a in Locs(s.base, s.bps);
    forall i | 0 <= i < |s.bps| && i != id
      ensures Loc(s.base, s.bps[i]) != a
    {
      LocsDistinct(s.base, s.bps, i, id);
    }
  }
}

/** What callers of `setjmp` and `longjmp` may rely on, across arbitrary code between the calls
    and any number of jumps. */
module JumpProperties {
  import opened Masks
  import opened Tracee
  import opened NonLocalJump

  /** Arbitrary code ran between two moments and left the buffer alone. */
  ghost predicate LeftBuffer(m: Machine, m': Machine, env: Word)
    requires env + BUF_SIZE <= SPACE
  {
    BufAt(m'.mem, env) == BufAt(m.mem, env) && m'.low == m.low && m'.errno == m.errno
  }

  /** `m3` resumes after the `setjmp` that took `m0` to `m1`: same place, same callee-saved
      registers, the signal mask reinstalled, and the stack pointer `setjmp` was entered with. */
  ghost predicate Resumes(m0: Machine, m1: Machine, m3: Machine) {
    && m3.r.rip == m1.r.rip && Reinstalled(m1.mask, m3.mask)
    && m3.r.rbx == m1.r.rbx && m3.r.rbp == m1.r.rbp && m3.r.r12 == m1.r.r12 && m3.r.r13 == m1.r.r13
    && m3.r.r14 == m1.r.r14 && m3.r.r15 == m1.r.r15
    && m3.r.rsp == m0.r.rsp
  }

  /** One arrival: `longjmp` is entered in the first state and lands in the second. */
  datatype Jump = Jump(entry: Machine, landing: Machine)

  ghost predicate Chain(from: Machine, env: Word, jumps: seq<Jump>)
    requires env + BUF_SIZE <= SPACE
    decreases |jumps|
  {
    jumps != [] ==>
      && LeftBuffer(from, jumps[0].entry, env) && jumps[0].entry.r.rdi == env
      && LongjmpDoes(jumps[0].entry, jumps[0].landing)
      && Chain(jumps[0].landing, env, jumps[1..])
  }

  /** A jump leaves the buffer as it was. */
  lemma JumpKeepsBuffer(m0: Machine, m2: Machine, m3: Machine)
    requires Laid(m0, m0.r.rdi, m0.r.rsp) && LongjmpDoes(m2, m3)
    requires m2.r.rdi == m0.r.rdi && m2.low == m0.low && m2.errno == m0.errno
    requires BufAt(m2.mem, m0.r.rdi).rsp == m0.r.rsp
    ensures LeftBuffer(m2, m3, m0.r.rdi)
  {
  }

  /** A jump from a frame below that of the `setjmp` changes no memory from its entry slot up,
      apart from `errno`; a jump from that very depth overwrites the entry slot with the
      buffer's address. */
  lemma JumpFrame(m0: Machine, m1: Machine, m2: Machine, m3: Machine, a: Word)
    requires SetjmpDoes(m0, m1) && LeftBuffer(m1, m2, m0.r.rdi) && m2.r.rdi == m0.r.rdi && LongjmpDoes(m2, m3)
    requires m2.r.rsp <= m0.r.rsp <= a && a != m2.errno
    ensures m2.r.rsp < m0.r.rsp ==> At(m3.mem, a) == At(m2.mem, a)
    ensures m2.r.rsp == m0.r.rsp == a ==> At(m3.mem, a) == m0.r.rdi
    ensures m2.r.rsp == m0.r.rsp < a ==> At(m3.mem, a) == At(m2.mem, a)
  {
  }

  /** `m3` is the landing of a jump entered in `m2`: it returns the value passed, 1 for 0, and
      changes no memory from `setjmp`'s entry slot up when it comes from a deeper frame. */
  ghost predicate Returns(m0: Machine, m2: Machine, m3: Machine) {
    && m3.r.rax == (if m2.r.rsi == 0 then 1 else m2.r.rsi)
    && (m2.r.rsp < m0.r.rsp ==> KeepsAbove(m0.r.rsp, m2, m3))
  }

  /** Apart from `errno`, memory from `low` up is the same. */
  ghost predicate KeepsAbove(low: Word, m: Machine, m': Machine) {
    forall a: Word :: low <= a && a != m.errno ==> At(m'.mem, a) == At(m.mem, a)
  }

  lemma JumpReturns(m0: Machine, m1: Machine, m2: Machine, m3: Machine)
    requires SetjmpDoes(m0, m1) && LeftBuffer(m1, m2, m0.r.rdi) && m2.r.rdi == m0.r.rdi && LongjmpDoes(m2, m3)
    ensures Returns(m0, m2, m3)
  {
    if m2.r.rsp < m0.r.rsp {
      forall a: Word | m0.r.rsp <= a && a != m2.errno
        ensures At(m3.mem, a) == At(m2.mem, a)
      {
        JumpFrame(m0, m1, m2, m3, a);
      }
    }
  }

  lemma {:induction false} ChainResumes(m0: Machine, m1: Machine, from: Machine, jumps: seq<Jump>)
    requires SetjmpDoes(m0, m1)
    requires LeftBuffer(m1, from, m0.r.rdi) && Chain(from, m0.r.rdi, jumps)
    ensures forall k :: 0 <= k < |jumps| ==>
      && Resumes(m0, m1, jumps[k].landing) && LeftBuffer(m1, jumps[k].landing, m0.r.rdi)
      && Returns(m0, jumps[k].entry, jumps[k].landing)
    decreases |jumps|
  {
    if jumps != [] {
      var j := jumps[0];
      JumpKeepsBuffer(m0, j.entry, j.landing);
      JumpReturns(m0, m1, j.entry, j.landing);
      BlockableReinstalls(m0.mask);
      ChainResumes(m0, m1, j.landing, jumps[1..]);
      assert forall k :: 1 <= k < |jumps| ==> jumps[k] == jumps[1..][k - 1];
    }
  }

  /** `longjmp` resumes `setjmp`, any number of times on one buffer and from any depth: every
      landing is at the same instruction with the registers of the `setjmp` call and the same
      stack pointer, so the stack never drifts, and the buffer stays good; it returns the value
      of its own jump. The signals blocked are those blocked at `setjmp` except SIGKILL and
      SIGSTOP, so a mask without these two comes back unchanged. */
  lemma RepeatedJumps(m0: Machine, m1: Machine, jumps: seq<Jump>)
    requires SetjmpDoes(m0, m1) && Chain(m1, m0.r.rdi, jumps)
    ensures forall k :: 0 <= k < |jumps| ==>
      && Resumes(m0, m1, jumps[k].landing) && LeftBuffer(m1, jumps[k].landing, m0.r.rdi)
      && Returns(m0, jumps[k].entry, jumps[k].landing)
    ensures Installable(m0.mask) ==> forall k :: 0 <= k < |jumps| ==> jumps[k].landing.mask == m1.mask
  {
    ChainResumes(m0, m1, m1, jumps);
  }

  /** Every jump comes from a frame below `top`, and the code before it keeps memory from there up. */
  ghost predicate FromBelow(top: Word, from: Machine, jumps: seq<Jump>)
    decreases |jumps|
  {
    jumps != [] ==>
      && jumps[0].entry.r.rsp < top && KeepsAbove(top, from, jumps[0].entry)
      && FromBelow(top, jumps[0].landing, jumps[1..])
  }

  /** A chain of jumps from deeper frames never disturbs the frames of `setjmp`'s callers: from its
      entry slot up, memory is at every landing what it was when the chain began. */
  lemma {:induction false} FramesSurvive(m0: Machine, m1: Machine, from: Machine, jumps: seq<Jump>)
    requires SetjmpDoes(m0, m1)
    requires LeftBuffer(m1, from, m0.r.rdi) && Chain(from, m0.r.rdi, jumps) && FromBelow(m0.r.rsp, from, jumps)
    ensures forall k :: 0 <= k < |jumps| ==> KeepsAbove(m0.r.rsp, from, jumps[k].landing)
    decreases |jumps|
  {
    if jumps != [] {
      var j := jumps[0];
      JumpKeepsBuffer(m0, j.entry, j.landing);
      JumpReturns(m0, m1, j.entry, j.landing);
      FramesSurvive(m0, m1, j.landing, jumps[1..]);
      assert forall k :: 1 <= k < |jumps| ==> jumps[k] == jumps[1..][k - 1];
    }
  }

  /** The stack pointer is not the one `setjmp` first returned with: it is eight lower, always. */
  lemma StackPointerEightLow(m0: Machine, m1: Machine, m3: Machine)
    requires SetjmpDoes(m0, m1) && Resumes(m0, m1, m3)
    ensures m3.r.rsp == m1.r.rsp - 8 && m3.r.rsp != m1.r.rsp
  {
  }

  // ---------------------------------------------------------------- the returned value

  /** A C `int` in a register is its low half. */
  function IntOf(w: Word): Word { w % 0x1_0000_0000 }

  /** `setjmp` appears to return `val`, or 1 for 0, exactly when a zero `val` comes in a register
      that is zero throughout: the whole register is tested, not the `int` in it. */
  lemma ReturnedValue(m: Machine, m': Machine)
    requires LongjmpDoes(m, m')
    ensures (IntOf(m'.r.rax) == if IntOf(m.r.rsi) == 0 then 1 else IntOf(m.r.rsi))
            <==> (IntOf(m.r.rsi) == 0 ==> m.r.rsi == 0)
    ensures IntOf(m.r.rsi) == 0 && m.r.rsi != 0 ==> IntOf(m'.r.rax) == 0
  {
  }
}

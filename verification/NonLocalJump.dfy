/** HW3: `setjmp` and `longjmp` as instruction sequences on a machine with registers, memory
    in eight-byte slots, and the kernel's signal mask. Addresses are multiples of eight. */
module NonLocalJump {
  import opened Masks
  import opened Tracee

  datatype Registers = Registers(
    rax: Word, rbx: Word, rcx: Word, rdx: Word, rsi: Word, rdi: Word, rbp: Word, rsp: Word,
    r8: Word, r9: Word, r10: Word, r11: Word, r12: Word, r13: Word, r14: Word, r15: Word, rip: Word)

  type Slots = map<Word, Word>

  function At(m: Slots, a: Word): Word { if a in m then m[a] else 0 }

  /** The fields of `jmp_buf_s`: eight registers and the mask. */
  datatype JmpBuf = JmpBuf(rbx: Word, rsp: Word, rbp: Word, r12: Word, r13: Word, r14: Word, r15: Word,
                           rip: Word, mask: Word)

  const BUF_SIZE: int := 72

  function BufAt(m: Slots, env: Word): JmpBuf
    requires env + BUF_SIZE <= SPACE
  {
    JmpBuf(At(m, env), At(m, env + 8), At(m, env + 16), At(m, env + 24), At(m, env + 32), At(m, env + 40),
           At(m, env + 48), At(m, env + 56), At(m, env + 64))
  }

  predicate InBuf(env: Word, a: Word) { env <= a < env + BUF_SIZE }

  // ---------------------------------------------------------------- C calls

  /** What a C function may leave behind besides its result: the caller-saved registers, and
      anything in the part of the stack below the caller. */
  datatype Clobber = Clobber(rcx: Word, rdx: Word, rsi: Word, rdi: Word, r8: Word, r9: Word, r10: Word, r11: Word,
                             junk: Slots)

  function Clobbered(r: Registers, k: Clobber, result: Word): Registers {
    r.(rax := result, rcx := k.rcx, rdx := k.rdx, rsi := k.rsi, rdi := k.rdi,
       r8 := k.r8, r9 := k.r9, r10 := k.r10, r11 := k.r11)
  }

  function Scribbled(m: Slots, k: Clobber, low: Word, top: Word): Slots {
    m + map a | a in k.junk && low <= a < top :: k.junk[a]
  }

  // ---------------------------------------------------------------- the machine

  /** Registers, memory, mask; the lowest address of the stack and where `errno` lives. */
  datatype Machine = Machine(r: Registers, mem: Slots, mask: Word, low: Word, errno: Word)

  predicate Aligned(a: Word) { a % 8 == 0 }

  /** The buffer and `errno` are whole slots clear of each other and of the stack up to and
      including the slot at `top`; there is room below `top` for two pushes and a call. */
  predicate Laid(m: Machine, env: Word, top: Word) {
    && Aligned(env) && Aligned(top) && Aligned(m.errno) && Aligned(m.low)
    && env + BUF_SIZE <= SPACE && m.low + 32 <= top && top + 16 <= SPACE
    && (env + BUF_SIZE <= m.low || top + 8 <= env)
    && !(m.low <= m.errno <= top) && !InBuf(env, m.errno)
  }

  /** What a call of `setjmp` does from its first instruction to the one after its return, with
      its buffer and stack laid out. */
  ghost predicate SetjmpDoes(m: Machine, m': Machine) {
    var env, entry := m.r.rdi, m.r.rsp;
    && Laid(m, env, entry)
    && BufAt(m'.mem, env)
         == JmpBuf(m.r.rbx, entry, m.r.rbp, m.r.r12, m.r.r13, m.r.r14, m.r.r15, At(m.mem, entry), m.mask)
    && m'.r.rip == At(m.mem, entry) && m'.r.rsp == entry + 8 && m'.r.rax == 0
    && m'.r.rbx == m.r.rbx && m'.r.rbp == m.r.rbp
    && m'.r.r12 == m.r.r12 && m'.r.r13 == m.r.r13 && m'.r.r14 == m.r.r14 && m'.r.r15 == m.r.r15
    && m'.mask == m.mask && m'.low == m.low && m'.errno == m.errno && At(m'.mem, m.errno) == 0
    && forall a: Word :: !(m.low <= a < entry) && !InBuf(env, a) && a != m.errno ==> At(m'.mem, a) == At(m.mem, a)
  }

  /** What `longjmp` does from its first instruction to where it lands, with its buffer and stack
      laid out. */
  ghost predicate LongjmpDoes(m: Machine, m': Machine) {
    var env, entry, val := m.r.rdi, m.r.rsp, m.r.rsi;
    && Laid(m, env, entry)
    && var b := BufAt(m.mem, env);
    && b.rsp >= 8
    && m'.r.rip == b.rip && m'.r.rsp == b.rsp && m'.r.rax == (if val == 0 then 1 else val)
    && m'.r.rbx == b.rbx && m'.r.rbp == b.rbp
    && m'.r.r12 == b.r12 && m'.r.r13 == b.r13 && m'.r.r14 == b.r14 && m'.r.r15 == b.r15
    && m'.mask == Blockable(b.mask) && m'.low == m.low && m'.errno == m.errno
    && At(m'.mem, b.rsp - 8) == b.rip
    && (m.errno != b.rsp - 8 ==> At(m'.mem, m.errno) == 0)
    && (entry != b.rsp - 8 ==> At(m'.mem, entry) == env)
    && forall a: Word :: !(m.low <= a <= entry) && a != b.rsp - 8 && a != m.errno ==> At(m'.mem, a) == At(m.mem, a)
  }

  /** One slot was written. */
  ghost predicate Wrote(m: Slots, m': Slots, at: Word, v: Word) {
    At(m', at) == v && forall a: Word :: a != at ==> At(m', a) == At(m, a)
  }

  /** `longjmp` after its call of `siglongjmp` has come back: registers from the buffer, and a
      jump through the slot below the saved stack pointer. */
  ghost predicate Lands(m1: Machine, m2: Machine)
    requires m1.r.rdi + BUF_SIZE <= SPACE && BufAt(m1.mem, m1.r.rdi).rsp >= 8
  {
    var b := BufAt(m1.mem, m1.r.rdi);
    && m2.r.rip == b.rip && m2.r.rsp == b.rsp && m2.r.rax == (if m1.r.rsi == 0 then 1 else m1.r.rsi)
    && m2.r.rbx == b.rbx && m2.r.rbp == b.rbp
    && m2.r.r12 == b.r12 && m2.r.r13 == b.r13 && m2.r.r14 == b.r14 && m2.r.r15 == b.r15
    && m2.mask == m1.mask && m2.low == m1.low && m2.errno == m1.errno
    && Wrote(m1.mem, m2.mem, b.rsp - 8, b.rip)
  }

  lemma LandsThere(m: Machine, m1: Machine, m2: Machine)
    requires Laid(m, m.r.rdi, m.r.rsp) && BufAt(m.mem, m.r.rdi).rsp >= 8
    requires m1.r.rdi == m.r.rdi && m1.r.rsi == m.r.rsi && m1.low == m.low && m1.errno == m.errno
    requires m1.mask == Blockable(At(m.mem, m.r.rdi + 64)) && At(m1.mem, m.r.rsp) == m.r.rdi && At(m1.mem, m.errno) == 0
    requires forall a: Word :: !(m.low <= a <= m.r.rsp) && a != m.errno ==> At(m1.mem, a) == At(m.mem, a)
    requires BufAt(m1.mem, m1.r.rdi) == BufAt(m.mem, m.r.rdi) && Lands(m1, m2)
    ensures LongjmpDoes(m, m2)
  {
  }

  /** A buffer clear of a stretch of stack and of `errno` survives writes to them. */
  lemma BufKept(m: Slots, m': Slots, env: Word, from: Word, to: Word, errno: Word)
    requires env + BUF_SIZE <= SPACE && (env + BUF_SIZE <= from || to + 8 <= env) && !InBuf(env, errno)
    requires forall a: Word :: !(from <= a <= to) && a != errno ==> At(m', a) == At(m, a)
    ensures BufAt(m', env) == BufAt(m, env)
  {
  }

  /** Memory along `setjmp`: after its call of `sigsetjmp`, after the seven stores, and at the end. */
  lemma BufferFilled(m: Machine, called: Slots, stored: Slots, m': Machine)
    requires Laid(m, m.r.rdi, m.r.rsp)
    requires At(called, m.r.rdi + 64) == m.mask && At(called, m.errno) == 0
    requires forall a: Word ::
      !(m.low <= a < m.r.rsp) && a != m.r.rdi + 64 && a != m.errno ==> At(called, a) == At(m.mem, a)
    requires At(stored, m.r.rdi) == m.r.rbx && At(stored, m.r.rdi + 8) == m.r.rsp && At(stored, m.r.rdi + 16) == m.r.rbp
    requires At(stored, m.r.rdi + 24) == m.r.r12 && At(stored, m.r.rdi + 32) == m.r.r13
    requires At(stored, m.r.rdi + 40) == m.r.r14 && At(stored, m.r.rdi + 48) == m.r.r15
    requires forall a: Word :: !(m.r.rdi <= a < m.r.rdi + 56) ==> At(stored, a) == At(called, a)
    requires At(m'.mem, m.r.rdi + 56) == At(stored, m.r.rsp)
    requires forall a: Word :: a != m.r.rdi + 56 ==> At(m'.mem, a) == At(stored, a)
    ensures BufAt(m'.mem, m.r.rdi)
      == JmpBuf(m.r.rbx, m.r.rsp, m.r.rbp, m.r.r12, m.r.r13, m.r.r14, m.r.r15, At(m.mem, m.r.rsp), m.mask)
    ensures At(m'.mem, m.errno) == 0
    ensures forall a: Word ::
      !(m.low <= a < m.r.rsp) && !InBuf(m.r.rdi, a) && a != m.errno ==> At(m'.mem, a) == At(m.mem, a)
  {
  }

  class Thread {
    var r: Registers
    var mem: Slots
    var mask: Word
    const low: Word
    const errno: Word

    constructor (m: Machine)
      ensures View() == m
    {
      r, mem, mask := m.r, m.mem, m.mask;
      low, errno := m.low, m.errno;
    }

    function View(): Machine
      reads this
    {
      Machine(r, mem, mask, low, errno)
    }

    method Push(v: Word)
      requires r.rsp >= 8
      modifies `r, `mem
      ensures r == old(r).(rsp := old(r.rsp) - 8) && Wrote(old(mem), mem, r.rsp, v)
    {
      r := r.(rsp := r.rsp - 8);
      mem := mem[r.rsp := v];
    }

    method Pop() returns (v: Word)
      requires r.rsp + 8 < SPACE
      modifies `r
      ensures v == At(mem, old(r.rsp)) && r == old(r).(rsp := old(r.rsp) + 8)
    {
      v := At(mem, r.rsp);
      r := r.(rsp := r.rsp + 8);
    }

    method Store(a: Word, v: Word)
      modifies `mem
      ensures Wrote(old(mem), mem, a, v)
    {
      mem := mem[a := v];
    }

    /** `sigsetjmp(env)`: ask for the mask without changing it, and keep it in the buffer. */
    method SigSetJmp(k: Clobber)
      requires r.rdi + BUF_SIZE <= SPACE
      modifies `r, `mem
      ensures r == Clobbered(old(r), k, 0)
      ensures old(r.rdi) + 64 != errno ==> At(mem, old(r.rdi) + 64) == mask
      ensures At(mem, errno) == 0
      ensures forall a: Word ::
        !(low <= a < old(r.rsp)) && a != old(r.rdi) + 64 && a != errno ==> At(mem, a) == At(old(mem), a)
    {
      mem := Scribbled(mem, k, low, r.rsp);
      mem := mem[r.rdi + 64 := mask];
      mem := mem[errno := 0];
      r := Clobbered(r, k, 0);
    }

    /** `siglongjmp(env)`: install the mask kept in the buffer. */
    method SigLongJmp(k: Clobber)
      requires r.rdi + BUF_SIZE <= SPACE
      modifies `r, `mem, `mask
      ensures r == Clobbered(old(r), k, 0)
      ensures mask == Blockable(At(old(mem), old(r.rdi) + 64)) && At(mem, errno) == 0
      ensures Reinstalled(At(old(mem), old(r.rdi) + 64), mask)
      ensures forall a: Word :: !(low <= a < old(r.rsp)) && a != errno ==> At(mem, a) == At(old(mem), a)
    {
      BlockableReinstalls(At(mem, r.rdi + 64));
      mask := Blockable(At(mem, r.rdi + 64));
      mem := Scribbled(mem, k, low, r.rsp);
      mem := mem[errno := 0];
      r := Clobbered(r, k, 0);
    }

    method Setjmp(k: Clobber)
      requires Laid(View(), r.rdi, r.rsp)
      modifies this
      ensures SetjmpDoes(old(View()), View())
    {
      ghost var m := View();
      CallSigSetJmp(k);
      ghost var called := mem;
      SaveRegisters();
      ghost var stored := mem;
      SaveTarget();
      BufferFilled(m, called, stored, View());
    }

    /** Push the argument, call `sigsetjmp`, pop the argument. */
    method CallSigSetJmp(k: Clobber)
      requires Laid(View(), r.rdi, r.rsp)
      modifies `r, `mem
      ensures r == Clobbered(old(r), k, 0).(rdi := old(r.rdi))
      ensures At(mem, r.rdi + 64) == mask && At(mem, errno) == 0
      ensures forall a: Word :: !(low <= a < r.rsp) && a != r.rdi + 64 && a != errno ==> At(mem, a) == At(old(mem), a)
    {
      ghost var env, entry := r.rdi, r.rsp;
      Push(r.rdi);
      SigSetJmp(k);
      assert At(mem, entry - 8) == env;
      var saved := Pop();
      r := r.(rdi := saved);
    }

    /** The seven stores of `setjmp`. */
    method SaveRegisters()
      requires r.rdi + BUF_SIZE <= SPACE
      modifies `mem
      ensures At(mem, r.rdi) == r.rbx && At(mem, r.rdi + 8) == r.rsp && At(mem, r.rdi + 16) == r.rbp
      ensures At(mem, r.rdi + 24) == r.r12 && At(mem, r.rdi + 32) == r.r13
      ensures At(mem, r.rdi + 40) == r.r14 && At(mem, r.rdi + 48) == r.r15
      ensures forall a: Word :: !(r.rdi <= a < r.rdi + 56) ==> At(mem, a) == At(old(mem), a)
    {
      Store(r.rdi + 8 * 0, r.rbx);
      Store(r.rdi + 8 * 1, r.rsp);
      Store(r.rdi + 8 * 2, r.rbp);
      Store(r.rdi + 8 * 3, r.r12);
      Store(r.rdi + 8 * 4, r.r13);
      Store(r.rdi + 8 * 5, r.r14);
      Store(r.rdi + 8 * 6, r.r15);
    }

    /** Pop the return address into the buffer, push it back, return to it. */
    method SaveTarget()
      requires r.rdi + BUF_SIZE <= SPACE && r.rsp + 16 <= SPACE
      requires !(r.rsp < r.rdi + 64 && r.rdi + 56 < r.rsp + 8)
      modifies `r, `mem
      ensures r == old(r).(rsp := old(r.rsp) + 8, rip := At(old(mem), old(r.rsp)))
      ensures At(mem, r.rdi + 56) == At(old(mem), old(r.rsp))
      ensures forall a: Word :: a != r.rdi + 56 ==> At(mem, a) == At(old(mem), a)
    {
      var target := Pop();
      Store(r.rdi + 56, target);
      Push(At(mem, r.rdi + 56));
      target := Pop();
      r := r.(rip := target);
    }

    method Longjmp(k: Clobber)
      requires Laid(View(), r.rdi, r.rsp) && 8 <= At(mem, r.rdi + 8) && At(mem, r.rdi + 8) + 8 <= SPACE
      modifies this
      ensures LongjmpDoes(old(View()), View())
      ensures Reinstalled(At(old(mem), old(r.rdi) + 64), mask)
    {
      BlockableReinstalls(At(mem, r.rdi + 64));
      ghost var m := View();
      CallSigLongJmp(k);
      ghost var m1 := View();
      BufKept(m.mem, mem, r.rdi, low, m.r.rsp, errno);
      Land();
      LandsThere(m, m1, View());
    }

    /** Choose the value, restore the registers, and jump. */
    method Land()
      requires r.rdi + BUF_SIZE <= SPACE
      requires 8 <= BufAt(mem, r.rdi).rsp && BufAt(mem, r.rdi).rsp + 8 <= SPACE
      modifies `r, `mem
      ensures Lands(old(View()), View())
    {
      if r.rsi == 0 {
        r := r.(rsi := 1);
      }
      r := r.(rax := r.rsi);
      RestoreRegisters();
      JumpToTarget();
    }

    /** Push the saved return address where the saved stack pointer is, and return to it. */
    method JumpToTarget()
      requires r.rdi + BUF_SIZE <= SPACE && 8 <= r.rsp && r.rsp + 8 <= SPACE
      modifies `r, `mem
      ensures r == old(r).(rip := At(old(mem), old(r.rdi) + 56)) && At(mem, r.rsp - 8) == r.rip
      ensures forall a: Word :: a != old(r.rsp) - 8 ==> At(mem, a) == At(old(mem), a)
    {
      Push(At(mem, r.rdi + 8 * 7));
      var target := Pop();
      r := r.(rip := target);
    }

    /** Discard the return address and push both arguments. */
    method PushArguments()
      requires Laid(View(), r.rdi, r.rsp)
      modifies `r, `mem
      ensures r == old(r).(rax := At(old(mem), old(r.rsp)), rsp := old(r.rsp) - 8)
      ensures At(mem, old(r.rsp)) == r.rdi && At(mem, r.rsp) == r.rsi
      ensures forall a: Word :: a != old(r.rsp) && a != r.rsp ==> At(mem, a) == At(old(mem), a)
    {
      var v := Pop();
      r := r.(rax := v);
      Push(r.rdi);
      Push(r.rsi);
    }

    /** Push both arguments, call `siglongjmp`, pop them. */
    method CallSigLongJmp(k: Clobber)
      requires Laid(View(), r.rdi, r.rsp)
      modifies this
      ensures r == Clobbered(old(r), k, 0).(rdi := old(r.rdi), rsi := old(r.rsi), rsp := old(r.rsp) + 8)
      ensures mask == Blockable(At(old(mem), r.rdi + 64))
      ensures At(mem, old(r.rsp)) == r.rdi && At(mem, errno) == 0
      ensures forall a: Word :: !(low <= a <= old(r.rsp)) && a != errno ==> At(mem, a) == At(old(mem), a)
    {
      PushArguments();
      SigLongJmp(k);
      var v := Pop();
      r := r.(rsi := v);
      v := Pop();
      r := r.(rdi := v);
    }

    method RestoreRegisters()
      requires r.rdi + BUF_SIZE <= SPACE
      modifies `r
      ensures var b := BufAt(mem, old(r.rdi));
        r == old(r).(rbx := b.rbx, rsp := b.rsp, rbp := b.rbp, r12 := b.r12, r13 := b.r13, r14 := b.r14, r15 := b.r15)
    {
      r := r.(rbx := At(mem, r.rdi + 8 * 0));
      r := r.(rsp := At(mem, r.rdi + 8 * 1));
      r := r.(rbp := At(mem, r.rdi + 8 * 2));
      r := r.(r12 := At(mem, r.rdi + 8 * 3));
      r := r.(r13 := At(mem, r.rdi + 8 * 4));
      r := r.(r14 := At(mem, r.rdi + 8 * 5));
      r := r.(r15 := At(mem, r.rdi + 8 * 6));
    }
  }
}

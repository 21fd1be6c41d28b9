/** `dump`: memory as it is shown, word by word, and what that says about the program. */
module Dump {
  import opened Tracee
  import opened Patch
  import opened Sdb
  import opened Instrumented
  import opened Simulation

  /** The memory a debugger can peek at. */
  function Seen(proc: Process): Mem {
    match proc case Gone => map[] case Live(_, m) => m
  }

  /** Byte `r` of a peek at `a`: all ones when the peek fails. */
  function Shown(m: Mem, a: Addr, r: nat): bv8
    requires r < 8
  {
    if Readable(m, a) then m[a + r] else 0xff
  }

  /** The eight bytes a peek at `a` yields, lowest first. */
  function WordBytes(m: Mem, a: Addr): (b: seq<bv8>)
    ensures |b| == 8
  {
    seq(8, r requires 0 <= r < 8 => Shown(m, a, r))
  }

  lemma PeekedBytes(m: Mem, a: Addr)
    ensures BytesOf(Peek(m, a)) == WordBytes(m, a)
  {
    if Readable(m, a) {
      WordRoundTrip(EightAt(m, a));
      assert EightAt(m, a) == WordBytes(m, a);
    }
  }

  /** The bytes of `n` consecutive words from `at`. */
  function Dumped(m: Mem, at: Addr, n: nat): (b: seq<bv8>)
    requires n <= 10
    ensures |b| == 8 * n
  {
    if n == 0 then [] else Dumped(m, at, n - 1) + WordBytes(m, Plus(at, 8 * (n - 1)))
  }

  lemma PlusAssociates(a: Addr, b: Addr, c: Addr)
    ensures Plus(a, Plus(b, c)) == Plus(Plus(a, b), c)
  {
  }

  /** A dump continues where a shorter one stops, wrap-around included. */
  lemma {:induction false} DumpedSplit(m: Mem, at: Addr, i: nat, j: nat)
    requires i + j <= 10
    ensures Dumped(m, at, i + j) == Dumped(m, at, i) + Dumped(m, Plus(at, 8 * i), j)
    decreases j
  {
    if j > 0 {
      DumpedSplit(m, at, i, j - 1);
      PlusAssociates(at, 8 * i, 8 * (j - 1));
    }
  }

  /** The next `n` words of a dump, addressed from the middle of it. */
  lemma NextWords(m: Mem, base: Addr, addr: Addr, done: nat, n: nat)
    requires done + n <= 10
    ensures Dumped(m, Plus(base, addr), done + n)
         == Dumped(m, Plus(base, addr), done) + Dumped(m, Plus(base, Plus(addr, 8 * done)), n)
    ensures Plus(Plus(addr, 8 * done), 8 * n) == Plus(addr, 8 * (done + n))
  {
    PlusAssociates(base, addr, 8 * done);
    DumpedSplit(m, Plus(base, addr), done, n);
  }

  /** Byte `k` of a dump is the byte of memory `k` past the start, wrap-around included, or all
      ones when its word cannot be read. */
  lemma {:induction false} DumpedByte(m: Mem, at: Addr, n: nat, k: nat)
    requires n <= 10 && k < 8 * n
    ensures var a := Plus(at, 8 * (k / 8));
      if Readable(m, a) then Plus(at, k) in m && Dumped(m, at, n)[k] == m[Plus(at, k)] else Dumped(m, at, n)[k] == 0xff
    decreases n
  {
    if k < 8 * (n - 1) {
      DumpedByte(m, at, n - 1, k);
    } else {
      var a, r := Plus(at, 8 * (n - 1)), k - 8 * (n - 1);
      assert k / 8 == n - 1 && Dumped(m, at, n)[k] == WordBytes(m, a)[r];
      if Readable(m, a) { assert Plus(at, k) == a + r; }
    }
  }

  /** Byte `k` of a dump, when its word can be read, is the undebugged program's byte `k` past the
      start, except that an armed breakpoint shows as its int3. */
  lemma DumpShowsProgram(s: State, c: Undebugged, addr: Addr, k: nat)
    requires Mirrors(s, c) && k < 80
    requires Readable(c.mem, Plus(Plus(s.base, addr), 8 * (k / 8)))
    ensures var a := Plus(Plus(s.base, addr), k);
      && a in c.mem
      && Dumped(s.proc.mem, Plus(s.base, addr), 10)[k] ==
           if a in Locs(s.base, s.bps) && IsArmed(s.proc.mem, a) then INT3 else c.mem[a]
  {
    var at := Plus(s.base, addr);
    assert Readable(s.proc.mem, Plus(at, 8 * (k / 8)));
    DumpedByte(s.proc.mem, at, 10, k);
  }
}

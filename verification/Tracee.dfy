/** The traced process as the kernel and the processor see it: byte memory read and
    written eight bytes at a time, a register file, and a processor that is known only
    through the memory each instruction looks at. */
module Tracee {
  const SPACE: int := 0x1_0000_0000_0000_0000

  /** A 64-bit value used as a number; addresses are such values. */
  type Word = w: int | 0 <= w < 0x1_0000_0000_0000_0000
  type Addr = Word

  /** Mapped bytes only: an address outside the keys is not mapped. */
  type Mem = map<Addr, bv8>

  datatype Option<+T> = None | Some(value: T)

  /** The breakpoint instruction. */
  const INT3: bv8 := 0xcc

  /** What PTRACE_PEEK returns when the word cannot be read. */
  const PEEK_FAILED: bv64 := 0xffff_ffff_ffff_ffff

  // ---------------------------------------------------------------- 64-bit addresses

  function Plus(a: Addr, b: Addr): Addr {
    if a + b < SPACE then a + b else a + b - SPACE
  }

  function Next(a: Addr): Addr { Plus(a, 1) }

  function Prev(a: Addr): Addr { if a == 0 then SPACE - 1 else a - 1 }

  // ---------------------------------------------------------------- word access

  predicate Readable(m: Mem, a: Addr) {
    a + 8 <= SPACE && forall k :: a <= k < a + 8 ==> k in m
  }

  /** The little-endian word made of eight bytes, lowest address first. */
  function WordOf(b: seq<bv8>): bv64
    requires |b| == 8
  {
    (b[0] as bv64) | ((b[1] as bv64) << 8) | ((b[2] as bv64) << 16) | ((b[3] as bv64) << 24)
    | ((b[4] as bv64) << 32) | ((b[5] as bv64) << 40) | ((b[6] as bv64) << 48) | ((b[7] as bv64) << 56)
  }

  function BytesOf(w: bv64): (b: seq<bv8>)
    ensures |b| == 8
  {
    [(w & 0xff) as bv8, ((w >> 8) & 0xff) as bv8, ((w >> 16) & 0xff) as bv8, ((w >> 24) & 0xff) as bv8,
     ((w >> 32) & 0xff) as bv8, ((w >> 40) & 0xff) as bv8, ((w >> 48) & 0xff) as bv8, ((w >> 56) & 0xff) as bv8]
  }

  function Low(w: bv64): bv8 { (w & 0xff) as bv8 }

  function EightAt(m: Mem, a: Addr): (b: seq<bv8>)
    requires Readable(m, a)
    ensures |b| == 8
  {
    [m[a], m[a + 1], m[a + 2], m[a + 3], m[a + 4], m[a + 5], m[a + 6], m[a + 7]]
  }

  function Peek(m: Mem, a: Addr): bv64 {
    if Readable(m, a) then WordOf(EightAt(m, a)) else PEEK_FAILED
  }

  /** The lowest byte of a peek: all ones when the word cannot be read. */
  function PeekByte(m: Mem, a: Addr): bv8 {
    if Readable(m, a) then m[a] else 0xff
  }

  function Poke(m: Mem, a: Addr, w: bv64): Mem
    requires Readable(m, a)
  {
    var b := BytesOf(w);
    map k | k in m :: if a <= k < a + 8 then b[k - a] else m[k]
  }

  // ---------------------------------------------------------------- the processor

  /** The instruction pointer, and every other register by name. */
  datatype Regs = Regs(rip: Addr, others: map<string, Word>)

  datatype Effect = Writes(regs: Regs, bytes: Mem) | Exits

  /** Any processor: what the instruction at `rip` does, and the addresses whose content
      (instruction bytes included) can influence that. */
  datatype Cpu = Cpu(exec: (Regs, Mem) -> Effect, footprint: (Regs, Mem) -> set<Addr>)

  ghost predicate AgreeOn(m: Mem, m': Mem, on: set<Addr>) {
    forall a :: a in on ==> (a in m <==> a in m') && (a in m ==> m[a] == m'[a])
  }

  /** An instruction's effect depends on the bytes it reads and on nothing else. */
  ghost predicate Lawful(cpu: Cpu) {
    forall r: Regs, m: Mem, m': Mem :: AgreeOn(m, m', cpu.footprint(r, m)) ==> cpu.exec(r, m') == cpu.exec(r, m)
  }

  datatype Outcome = Trapped(regs: Regs) | Executed(regs: Regs, mem: Mem) | Exited

  /** One hardware step. Fetching the breakpoint byte moves `rip` past it and stops. */
  function HwStep(cpu: Cpu, r: Regs, m: Mem): Outcome {
    if r.rip in m && m[r.rip] == INT3 then Trapped(r.(rip := Next(r.rip)))
    else match cpu.exec(r, m)
      case Writes(r', bytes) => Executed(r', m + bytes)
      case Exits => Exited
  }

  /** Where a resumed process stands once it has been observed for `fuel` hardware steps. */
  datatype Halt =
    | AtTrap(regs: Regs, mem: Mem, steps: nat)
    | AtExit(steps: nat)
    | Busy(regs: Regs, mem: Mem, steps: nat)

  function RunFree(cpu: Cpu, r: Regs, m: Mem, fuel: nat): Halt
    decreases fuel
  {
    if fuel == 0 then Busy(r, m, 0)
    else match HwStep(cpu, r, m)
      case Trapped(r') => AtTrap(r', m, 0)
      case Exited => AtExit(0)
      case Executed(r', m') =>
        var h := RunFree(cpu, r', m', fuel - 1);
        h.(steps := h.steps + 1)
  }

  // ---------------------------------------------------------------- the undebugged program

  /** A program running with no debugger. An int3 of its own kills it. */
  datatype Undebugged = Alive(regs: Regs, mem: Mem) | Dead

  function Advance(cpu: Cpu, c: Undebugged): Undebugged {
    match c
    case Dead => Dead
    case Alive(r, m) =>
      match HwStep(cpu, r, m)
      case Executed(r', m') => Alive(r', m')
      case _ => Dead
  }

  function Run(cpu: Cpu, c: Undebugged, n: nat): Undebugged
    decreases n
  {
    if n == 0 then c else Run(cpu, Advance(cpu, c), n - 1)
  }

  lemma {:induction false} RunCompose(cpu: Cpu, c: Undebugged, i: nat, j: nat)
    ensures Run(cpu, Run(cpu, c, i), j) == Run(cpu, c, i + j)
    decreases i
  {
    if i > 0 {
      RunCompose(cpu, Advance(cpu, c), i - 1, j);
    }
  }

  lemma PrevNext(a: Addr)
    ensures Prev(Next(a)) == a && Next(Prev(a)) == a
  {
  }
}

/** HW4/util.cpp: `change_byte` patches one byte through a read-modify-write of the
    eight-byte word that starts there. */
module Patch {
  import opened Tracee

  /** What `change_byte` pokes: the word it peeked with its lowest byte replaced. */
  function Spliced(w: bv64, v: bv8): bv64 {
    (w & 0xffff_ffff_ffff_ff00) | (v as bv64)
  }

  /** The word-level patch, neighbours and all. */
  function PatchWord(m: Mem, a: Addr, v: bv8): Mem
    requires Readable(m, a)
  {
    Poke(m, a, Spliced(Peek(m, a), v))
  }

  /** The bytes of a word, lowest first. */
  predicate ByteByByte(w: bv64, b0: bv8, b1: bv8, b2: bv8, b3: bv8, b4: bv8, b5: bv8, b6: bv8, b7: bv8) {
    && (w & 0xff) as bv8 == b0 && ((w >> 8) & 0xff) as bv8 == b1
    && ((w >> 16) & 0xff) as bv8 == b2 && ((w >> 24) & 0xff) as bv8 == b3
    && ((w >> 32) & 0xff) as bv8 == b4 && ((w >> 40) & 0xff) as bv8 == b5
    && ((w >> 48) & 0xff) as bv8 == b6 && ((w >> 56) & 0xff) as bv8 == b7
  }

  /** Every byte of a spliced word: the lowest one is replaced, the seven others are kept. */
  lemma SplicedByBytes(b: seq<bv8>, v: bv8)
    requires |b| == 8
    ensures Low(WordOf(b)) == b[0]
    ensures ByteByByte(Spliced(WordOf(b), v), v, b[1], b[2], b[3], b[4], b[5], b[6], b[7])
  {
  }

  lemma BytesAre(w: bv64, b: seq<bv8>)
    requires |b| == 8 && ByteByByte(w, b[0], b[1], b[2], b[3], b[4], b[5], b[6], b[7])
    ensures BytesOf(w) == b
  {
  }

  lemma SplicedBytes(b: seq<bv8>, v: bv8)
    requires |b| == 8
    ensures BytesOf(Spliced(WordOf(b), v)) == b[0 := v]
    ensures Low(WordOf(b)) == b[0]
  {
    SplicedByBytes(b, v);
    BytesAre(Spliced(WordOf(b), v), b[0 := v]);
  }

  lemma WordRoundTrip(b: seq<bv8>)
    requires |b| == 8
    ensures BytesOf(WordOf(b)) == b
  {
  }

  lemma LowPeek(m: Mem, a: Addr)
    ensures Low(Peek(m, a)) == PeekByte(m, a)
  {
    if Readable(m, a) { SplicedBytes(EightAt(m, a), 0); }
  }

  lemma PokeKeepsNeighbours(m: Mem, a: Addr, w: bv64, v: bv8)
    requires Readable(m, a) && BytesOf(w) == EightAt(m, a)[0 := v]
    ensures Poke(m, a, w) == m[a := v]
  {
    var b, e := BytesOf(w), EightAt(m, a);
    assert b[0] == v && b[1] == e[1] && b[2] == e[2] && b[3] == e[3];
    assert b[4] == e[4] && b[5] == e[5] && b[6] == e[6] && b[7] == e[7];
  }

  /** The masked word write is a single-byte store: the byte at the patched address takes the
      new value and the seven bytes above it, which other breakpoints may own, are kept. */
  lemma PatchWordIsByteStore(m: Mem, a: Addr, v: bv8)
    requires Readable(m, a)
    ensures PatchWord(m, a, v) == m[a := v]
  {
    SplicedBytes(EightAt(m, a), v);
    PokeKeepsNeighbours(m, a, Spliced(Peek(m, a), v), v);
  }

  /** What `change_byte` computes from the word it peeks: the word to poke, and the old byte. */
  lemma SpliceAt(m: Mem, a: Addr, v: bv8)
    requires Readable(m, a)
    ensures Poke(m, a, Spliced(Peek(m, a), v)) == m[a := v] && Low(Peek(m, a)) == m[a]
  {
    LowPeek(m, a);
    PatchWordIsByteStore(m, a, v);
  }

  lemma UpdatesCommute(m: Mem, a: Addr, x: bv8, b: Addr, y: bv8)
    requires a != b
    ensures m[a := x][b := y] == m[b := y][a := x]
  {
  }

  lemma PatchTwice(m: Mem, a: Addr, x: bv8, b: Addr, y: bv8)
    requires Readable(m, a) && Readable(m, b)
    ensures Readable(PatchWord(m, a, x), b)
    ensures PatchWord(PatchWord(m, a, x), b, y) == m[a := x][b := y]
  {
    PatchWordIsByteStore(m, a, x);
    PatchWordIsByteStore(m[a := x], b, y);
  }

  /** Patches at distinct addresses commute, however their eight-byte windows overlap. */
  lemma PatchesCommute(m: Mem, a: Addr, x: bv8, b: Addr, y: bv8)
    requires Readable(m, a) && Readable(m, b) && a != b
    ensures Readable(PatchWord(m, a, x), b) && Readable(PatchWord(m, b, y), a)
    ensures PatchWord(PatchWord(m, a, x), b, y) == PatchWord(PatchWord(m, b, y), a, x)
  {
    PatchTwice(m, a, x, b, y);
    PatchTwice(m, b, y, a, x);
    UpdatesCommute(m, a, x, b, y);
  }
}

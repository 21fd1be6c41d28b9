/** HW3: `sigset_t` operations, a 64-bit word used as a set of signal numbers. The word is
    written out as its bits, lowest first. */
module SignalSet {
  const EINVAL: int := 22

  function NoBits(): (b: seq<bool>)
    ensures |b| == 64 && forall i :: 0 <= i < 64 ==> !b[i]
  {
    seq(64, i => false)
  }

  type Bits = b: seq<bool> | |b| == 64 witness NoBits()

  predicate IsSignal(signum: int) { 0 < signum <= 64 }

  function Or(a: Bits, b: Bits): Bits { seq(64, i requires 0 <= i < 64 => a[i] || b[i]) }

  function And(a: Bits, b: Bits): Bits { seq(64, i requires 0 <= i < 64 => a[i] && b[i]) }

  /** `sigmask`: 1 shifted left by one less than the signal number. */
  function Mask(signum: int): Bits
    requires IsSignal(signum)
  {
    seq(64, i requires 0 <= i < 64 => i == signum - 1)
  }

  /** An unsigned long stored in an int, then widened again to meet an unsigned long: the upper
      half is lost and replaced by copies of bit 31. */
  function ThroughInt(w: Bits): Bits {
    seq(64, i requires 0 <= i < 64 => if i < 32 then w[i] else w[31])
  }

  predicate Has(bits: Bits, n: int)
    requires IsSignal(n)
  {
    bits[n - 1]
  }

  /** The set of signals a word stands for. */
  ghost function Members(bits: Bits): set<int> {
    set n | 0 < n <= 64 && Has(bits, n)
  }

  /** Setting a signal's bit adds that signal and no other. */
  lemma AddedMembers(bits: Bits, n: int)
    requires IsSignal(n)
    ensures Members(Or(bits, Mask(n))) == Members(bits) + {n}
  {
    forall k | 0 < k <= 64
      ensures Has(Or(bits, Mask(n)), k) <==> Has(bits, k) || k == n
    {
    }
  }

  /** What the test in `sigismember` sees: for a signal below 32 its own bit, for 32 any bit
      from 31 up, beyond 32 nothing. */
  lemma TestSees(bits: Bits, n: int)
    requires IsSignal(n)
    ensures And(bits, ThroughInt(Mask(n))) != NoBits() <==>
      (n < 32 && bits[n - 1]) || (n == 32 && exists i :: 31 <= i < 64 && bits[i])
  {
    var t, w := ThroughInt(Mask(n)), And(bits, ThroughInt(Mask(n)));
    assert forall i :: 0 <= i < 64 ==> t[i] == (if i < 32 then i == n - 1 else n == 32);
    assert forall i :: 0 <= i < 64 ==> w[i] == (bits[i] && t[i]);
    if n < 32 && bits[n - 1] {
      assert w[n - 1] && !NoBits()[n - 1];
    } else if i :| n == 32 && 31 <= i < 64 && bits[i] {
      assert w[i] && !NoBits()[i];
    } else {
      assert w == NoBits();
    }
  }

  // ---------------------------------------------------------------- the operations

  /** A set after `sigaddset`: signals 1 to 64 are inserted, anything else is refused. */
  function Adding(bits: Bits, signum: int): Bits {
    if IsSignal(signum) then Or(bits, Mask(signum)) else bits
  }

  /** What `sigismember` answers. */
  function Answer(bits: Bits, signum: int): int {
    if !IsSignal(signum) then -1
    else if And(bits, ThroughInt(Mask(signum))) != NoBits() then 1
    else 0
  }

  /** `*set` and `errno`. */
  class SigSet {
    var bits: Bits
    var errno: int

    method SigEmptySet() returns (code: int)
      modifies `bits
      ensures code == 0 && bits == NoBits()
    {
      bits := NoBits();
      code := 0;
    }

    method SigAddSet(signum: int) returns (code: int)
      modifies this
      ensures code == (if IsSignal(signum) then 0 else -1) && bits == Adding(old(bits), signum)
      ensures Members(bits) == if IsSignal(signum) then old(Members(bits)) + {signum} else old(Members(bits))
      ensures errno == if IsSignal(signum) then old(errno) else EINVAL
    {
      if signum <= 0 || signum > 64 {
        errno := EINVAL;
        return -1;
      }
      AddedMembers(bits, signum);
      bits := Or(bits, Mask(signum));
      code := 0;
    }

    method SigIsMember(signum: int) returns (code: int)
      modifies `errno
      ensures code == Answer(bits, signum) && code in {-1, 0, 1}
      ensures code == -1 <==> signum <= 0 || signum > 64
      ensures errno == if IsSignal(signum) then old(errno) else EINVAL
    {
      if signum <= 0 || signum > 64 {
        errno := EINVAL;
        return -1;
      }
      var s := ThroughInt(Mask(signum));
      code := if And(bits, s) != NoBits() then 1 else 0;
    }
  }

  // ---------------------------------------------------------------- sets of signals

  /** `sigismember` tells members from non-members for signals 1 to 31, whatever the set. Beyond
      that it is right exactly when 32 is asked and no higher signal hides its absence, or
      when a signal above 32 is asked and is absent. */
  lemma AnswerIsMembership(bits: Bits, n: int)
    requires IsSignal(n)
    ensures Answer(bits, n) == (if n in Members(bits) then 1 else 0) <==>
      (n <= 31
       || (n == 32 && (32 in Members(bits) || forall k :: 33 <= k <= 64 ==> k !in Members(bits)))
       || (n >= 33 && n !in Members(bits)))
  {
    TestSees(bits, n);
    assert forall i :: 31 <= i < 64 && bits[i] ==> Has(bits, i + 1) && i + 1 in Members(bits);
  }

  /** The set after `sigemptyset` and a sequence of additions. */
  function Collected(signals: seq<int>): Bits {
    if signals == [] then NoBits()
    else Adding(Collected(signals[..|signals| - 1]), signals[|signals| - 1])
  }

  /** After emptying and any additions the set is the valid signals added, refused ones leaving
      no trace, every signal the header names is answered by whether it was added, and exactly
      the numbers that are no signal are refused. */
  lemma {:induction false} CollectedMembers(signals: seq<int>)
    ensures Members(Collected(signals)) == set k | k in signals && IsSignal(k)
    ensures forall n :: 1 <= n <= 31 ==> Answer(Collected(signals), n) == if n in signals then 1 else 0
    ensures forall n :: Answer(Collected(signals), n) == -1 <==> n <= 0 || n > 64
    decreases |signals|
  {
    if signals != [] {
      var front, last := signals[..|signals| - 1], signals[|signals| - 1];
      CollectedMembers(front);
      assert signals == front + [last];
      if IsSignal(last) { AddedMembers(Collected(front), last); }
    }
    forall n | 1 <= n <= 31
      ensures Answer(Collected(signals), n) == if n in signals then 1 else 0
    {
      AnswerIsMembership(Collected(signals), n);
    }
  }
}

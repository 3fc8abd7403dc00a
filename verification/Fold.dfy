/**
 History folding. A word is the sequence of its bits, bit 0 first; bits beyond the sequence are zero.
 The reference says which history bits meet in which bit of the result.
 */
module Fold {
  import opened Common
  import opened Arith

  type Word = seq<bool>

  const GHR_BITS: nat := 64

  function Bit(a: Word, i: nat): bool {
    i < |a| && a[i]
  }

  function Zero(w: nat): (z: Word)
    ensures |z| == w
  {
    seq(w, _ => false)
  }

  /** The low w bits. */
  function Low(a: Word, w: nat): (r: Word)
    ensures |r| == w && forall i :: 0 <= i < w ==> r[i] == Bit(a, i)
  {
    seq(w, i requires 0 <= i => Bit(a, i))
  }

  function ShiftRight(a: Word, w: nat): (r: Word)
    ensures |r| <= |a| && (w > 0 && a != [] ==> |r| < |a|)
    ensures |r| == (if |a| <= w then 0 else |a| - w)
    ensures forall i :: 0 <= i < |r| ==> r[i] == a[i + w]
  {
    if |a| <= w then [] else a[w..]
  }

  function Xor(a: Word, b: Word): (r: Word)
    requires |a| == |b|
    ensures |r| == |a| && forall i :: 0 <= i < |r| ==> r[i] == (a[i] != b[i])
  {
    seq(|a|, i requires 0 <= i < |a| => a[i] != b[i])
  }

  predicate IsZero(a: Word) {
    forall i :: 0 <= i < |a| ==> !a[i]
  }

  /** The XOR of the w-bit chunks of a. */
  function Chunks(a: Word, w: nat): (r: Word)
    requires w > 0
    ensures |r| == w
    decreases |a|
  {
    if a == [] then Zero(w) else Xor(Low(a, w), Chunks(ShiftRight(a, w), w))
  }

  /** The parity of the bits i < n of a with i % w == j. */
  function Parity(a: Word, n: nat, w: nat, j: nat): bool
    requires w > 0
  {
    if n == 0 then false else Parity(a, n - 1, w, j) != (Bit(a, n - 1) && (n - 1) % w == j)
  }

  // ---------------------------------------------------------------- chunks are parities

  lemma {:induction false} ParityShift(a: Word, n: nat, w: nat, j: nat)
    requires w > 0 && j < w
    ensures Parity(a, n + w, w, j) == (Bit(a, j) != Parity(ShiftRight(a, w), n, w, j))
  {
    if n == 0 {
      ParityFirst(a, w, w, j);
    } else {
      ParityShift(a, n - 1, w, j);
      DivShift(n - 1, 1, w);
    }
  }

  lemma {:induction false} ParityFirst(a: Word, n: nat, w: nat, j: nat)
    requires w > 0 && j < w && n <= w
    ensures Parity(a, n, w, j) == (j < n && Bit(a, j))
  {
    if n > 0 {
      ParityFirst(a, n - 1, w, j);
      DivUnique(n - 1, 0, n - 1, w);
    }
  }

  lemma {:induction false} ParityPast(a: Word, n: nat, w: nat, j: nat)
    requires w > 0 && n >= |a|
    ensures Parity(a, n, w, j) == Parity(a, |a|, w, j)
  {
    if n > |a| { ParityPast(a, n - 1, w, j); }
  }

  /** Bit j of the folded word is the parity of the history bits whose position is j modulo w. */
  lemma {:induction false} ChunksAreParities(a: Word, w: nat, j: nat)
    requires w > 0 && j < w
    ensures Chunks(a, w)[j] == Parity(a, |a|, w, j)
    decreases |a|
  {
    if a != [] {
      var b := ShiftRight(a, w);
      ChunksAreParities(b, w, j);
      ParityShift(a, |b|, w, j);
      ParityPast(a, |b| + w, w, j);
    }
  }

  lemma {:induction false} ZeroFolds(a: Word, w: nat)
    requires w > 0 && IsZero(a)
    ensures Chunks(a, w) == Zero(w)
    decreases |a|
  {
    if a != [] { ZeroFolds(ShiftRight(a, w), w); }
  }

  // ---------------------------------------------------------------- fold_ghr

  /** How many history bits the code folds for a given length: up to 62 all of them, from 63 on the whole register. */
  function Folded(len: nat): nat {
    if len < 63 then len else GHR_BITS
  }

  /** The width of the result: a 32-bit mask cuts wider chunks. */
  function OutBits(w: nat): nat {
    if w < 32 then w else 32
  }

  function FoldSpec(ghr: Word, len: nat, w: nat): (r: Word)
    requires w > 0
    ensures |r| == OutBits(w)
  {
    Low(Chunks(Low(ghr, Folded(len)), w), OutBits(w))
  }

  /** fold_ghr: it ends for every input, and is the XOR of the chunks of the masked register. */
  method FoldGhr(ghr: Word, len: nat, w: nat) returns (result: Word)
    requires |ghr| == GHR_BITS && 0 < w < GHR_BITS
    ensures result == FoldSpec(ghr, len, w)
  {
    var histLen := if len >= 64 then 63 else len;
    var g := if histLen < 63 then Low(ghr, histLen) else ghr;
    ghost var start := g;
    assert g == Low(ghr, Folded(len));
    var out := OutBits(w);
    result := Zero(out);
    while !IsZero(g)
      invariant |result| == out
      invariant Xor(result, Low(Chunks(g, w), out)) == Low(Chunks(start, w), out)
      decreases |g|
    {
      XorStep(result, g, w, out);
      result := Xor(result, Low(g, out));
      g := ShiftRight(g, w);
    }
    ZeroFolds(g, w);
    assert Xor(result, Low(Zero(w), out)) == result;
  }

  lemma XorStep(r: Word, g: Word, w: nat, out: nat)
    requires 0 < w && |r| == out <= w && g != []
    ensures Xor(Xor(r, Low(g, out)), Low(Chunks(ShiftRight(g, w), w), out)) == Xor(r, Low(Chunks(g, w), out))
  {
    assert Chunks(g, w) == Xor(Low(g, w), Chunks(ShiftRight(g, w), w));
  }

  // ---------------------------------------------------------------- main results

  /** For lengths up to 62 the fold is the XOR of the chunks of exactly that many bits; 63 works if and only if bit 63 is clear. */
  lemma FoldExactIff(ghr: Word, w: nat)
    requires |ghr| == GHR_BITS && 0 < w <= 32
    ensures forall len :: 0 <= len <= 62 ==> FoldSpec(ghr, len, w) == Chunks(Low(ghr, len), w)
    ensures FoldSpec(ghr, 63, w) == Chunks(Low(ghr, 63), w) <==> !ghr[63]
  {
    forall len | 0 <= len <= 62 ensures FoldSpec(ghr, len, w) == Chunks(Low(ghr, len), w) {
      LowAll(Chunks(Low(ghr, len), w), w);
    }
    LowAll(Chunks(Low(ghr, 64), w), w);
    LowAll(ghr, 64);
    var j := 63 % w;
    forall k | 0 <= k < w ensures Chunks(ghr, w)[k] == (Chunks(Low(ghr, 63), w)[k] != (ghr[63] && k == j)) {
      ChunksAreParities(ghr, w, k);
      ChunksAreParities(Low(ghr, 63), w, k);
      ParityAgree(ghr, Low(ghr, 63), 63, w, k);
    }
    if ghr[63] { assert Chunks(ghr, w)[j] != Chunks(Low(ghr, 63), w)[j]; }
    else { assert Chunks(ghr, w) == Chunks(Low(ghr, 63), w); }
  }

  lemma LowAll(a: Word, n: nat)
    requires |a| == n
    ensures Low(a, n) == a
  {
  }

  lemma {:induction false} ParityAgree(a: Word, b: Word, n: nat, w: nat, j: nat)
    requires w > 0 && forall i :: 0 <= i < n ==> Bit(a, i) == Bit(b, i)
    ensures Parity(a, n, w, j) == Parity(b, n, w, j)
  {
    if n > 0 { ParityAgree(a, b, n - 1, w, j); }
  }

  /** Folding is linear. */
  lemma FoldLinear(a: Word, b: Word, w: nat)
    requires |a| == |b| && w > 0
    ensures Chunks(Xor(a, b), w) == Xor(Chunks(a, w), Chunks(b, w))
  {
    forall j | 0 <= j < w ensures Chunks(Xor(a, b), w)[j] == (Chunks(a, w)[j] != Chunks(b, w)[j]) {
      ChunksAreParities(a, w, j);
      ChunksAreParities(b, w, j);
      ChunksAreParities(Xor(a, b), w, j);
      ParityLinear(a, b, |a|, w, j);
    }
  }

  lemma {:induction false} ParityLinear(a: Word, b: Word, n: nat, w: nat, j: nat)
    requires |a| == |b| && w > 0
    ensures Parity(Xor(a, b), n, w, j) == (Parity(a, n, w, j) != Parity(b, n, w, j))
  {
    if n > 0 { ParityLinear(a, b, n - 1, w, j); }
  }

  /** ((g << 1) | b) mod 2^L */
  function Push(g: Word, b: bool): (r: Word)
    requires g != []
    ensures |r| == |g|
  {
    [b] + g[..|g| - 1]
  }

  /** One step of a circular shift register: rotate left, let the new bit in, take the outgoing one out. */
  function CsrStep(f: Word, b: bool, outgoing: bool, len: nat): (r: Word)
    requires f != []
    ensures |r| == |f|
  {
    var w := |f|;
    seq(w, j requires 0 <= j < w => (f[(j + w - 1) % w] != (b && j == 0)) != (outgoing && j == len % w))
  }

  lemma {:induction false} ParityPush(g: Word, b: bool, n: nat, w: nat, j: nat)
    requires w > 0 && j < w && n < |g|
    ensures Parity(Push(g, b), n + 1, w, j) == (Parity(g, n, w, (j + w - 1) % w) != (b && j == 0))
  {
    if n > 0 {
      ParityPush(g, b, n - 1, w, j);
      NextResidue(n - 1, w, j);
    } else {
      DivUnique(0, 0, 0, w);
      assert Parity(Push(g, b), 0, w, j) == false;
    }
  }

  /** i + 1 falls on residue j exactly when i falls on the one before it. */
  lemma NextResidue(i: nat, w: nat, j: nat)
    requires w > 0 && j < w
    ensures (i + 1) % w == j <==> i % w == (j + w - 1) % w
  {
    var q, r := i / w, i % w;
    assert i == w * q + r;
    if r + 1 < w { DivUnique(i + 1, q, r + 1, w); } else { DivUnique(i + 1, q + 1, 0, w); }
    if j == 0 { DivUnique(w - 1, 0, w - 1, w); } else { DivUnique(j + w - 1, 1, j - 1, w); }
  }

  lemma PushedBit(g: Word, b: bool, w: nat, j: nat)
    requires g != [] && j < w
    ensures Chunks(Push(g, b), w)[j] ==
      ((Chunks(g, w)[(j + w - 1) % w] != (b && j == 0)) != (g[|g| - 1] && j == |g| % w))
  {
    hide Chunks, Push;
    var n, k := |g| - 1, (j + w - 1) % w;
    ChunksAreParities(Push(g, b), w, j);
    ChunksAreParities(g, w, k);
    ParityPush(g, b, n, w, j);
    NextResidue(n, w, j);
  }

  /** The hardware's incremental fold: pushing a bit into the history is one step of the folded register. */
  lemma FoldIsShiftRegister(g: Word, b: bool, w: nat)
    requires g != [] && w > 0
    ensures Chunks(Push(g, b), w) == CsrStep(Chunks(g, w), b, g[|g| - 1], |g|)
  {
    hide Chunks, Push;
    forall j | 0 <= j < w ensures Chunks(Push(g, b), w)[j] == CsrStep(Chunks(g, w), b, g[|g| - 1], |g|)[j] {
      PushedBit(g, b, w, j);
    }
  }
}

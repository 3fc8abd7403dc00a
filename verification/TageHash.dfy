/** The table indices and tags of TAGE, bit by bit: which address bits and which bits of the history meet in each. */
module TageHash {
  import opened Common
  import opened Arith
  import opened Fold
  import opened Tage

  /** Bit j of a number. */
  predicate BitOf(n: nat, j: nat) {
    if j == 0 then n % 2 == 1 else BitOf(n / 2, j - 1)
  }

  lemma HalfThen(n: nat, p: nat)
    requires p > 0
    ensures n / 2 / p == n / (2 * p)
  {
    var x, y := n / 2 / p, n / 2 % p;
    assert n / 2 == p * x + y;
    assert n == (2 * p) * x + (2 * y + n % 2);
    DivUnique(n, x, 2 * y + n % 2, 2 * p);
  }

  /** Bit j of a shifted number. */
  lemma {:induction false} Shifted(n: nat, q: nat, m: nat, j: nat)
    requires q == n / Pow2(m)
    ensures BitOf(q, j) == BitOf(n, m + j)
  {
    if m > 0 {
      HalfThen(n, Pow2(m - 1));
      Shifted(n / 2, q, m - 1, j);
    }
  }

  lemma {:induction false} BitsAt(n: nat, k: nat, j: nat)
    requires j < k
    ensures Bits(n, k)[j] == BitOf(n, j)
  {
    if j > 0 { BitsAt(n / 2, k - 1, j - 1); }
  }

  lemma {:induction false} NumberBit(w: Word, j: nat)
    ensures BitOf(ToNat(w), j) == Bit(w, j)
  {
    if w != [] {
      var rest := ToNat(w[1..]);
      assert ToNat(w) == (if w[0] then 1 else 0) + 2 * rest;
      assert ToNat(w) / 2 == rest;
      if j > 0 { NumberBit(w[1..], j - 1); }
    } else if j > 0 {
      NumberBit(w, j - 1);
    }
  }

  /** A word and the number it stands for. */
  lemma {:induction false} RoundTrip(w: Word)
    ensures Bits(ToNat(w), |w|) == w
  {
    forall j | 0 <= j < |w| ensures Bits(ToNat(w), |w|)[j] == w[j] {
      BitsAt(ToNat(w), |w|, j);
      NumberBit(w, j);
    }
  }

  /** The parity of the history bits at distance from + i, for i < n and i % w == j, where distance 0 is the newest outcome. */
  function HistoryParity(ghr: seq<bool>, from: nat, n: nat, w: nat, j: nat): bool
    requires w > 0
  {
    if n == 0 then false
    else
      var at := from + n - 1;
      HistoryParity(ghr, from, n - 1, w, j) != ((n - 1) % w == j && at < |ghr| && at < 64 && ghr[|ghr| - 1 - at])
  }

  lemma {:induction false} ParityOfRegister(ghr: seq<bool>, a: Word, from: nat, n: nat, w: nat, j: nat)
    requires w > 0 && |a| >= n && forall i :: 0 <= i < n ==> a[i] == Bit(Register(ghr), from + i)
    ensures Parity(a, n, w, j) == HistoryParity(ghr, from, n, w, j)
  {
    if n > 0 {
      ParityOfRegister(ghr, a, from, n - 1, w, j);
      assert a[n - 1] == Bit(Register(ghr), from + n - 1);
    }
  }

  /** Lengths up to 62 count as they are, longer ones as the whole register. */
  function Looks(len: nat): nat {
    if len <= 62 then len else 64
  }

  lemma FoldBit(ghr: seq<bool>, word: Word, from: nat, len: nat, w: nat, j: nat)
    requires 0 < w <= 32 && j < w && |word| == 64 && forall i :: 0 <= i < 64 ==> word[i] == Bit(Register(ghr), from + i)
    ensures FoldSpec(word, len, w)[j] == HistoryParity(ghr, from, Looks(len), w, j)
  {
    var a := Low(word, Folded(len));
    ChunksAreParities(a, w, j);
    ParityOfRegister(ghr, a, from, Looks(len), w, j);
  }

  // ---------------------------------------------------------------- main results

  /** Bit j of a base index: address bits 2 + j and 2 + basePow + j. */
  lemma BaseIndexBit(c: Config, pc: nat, j: nat)
    requires j < c.basePow
    ensures BitOf(BaseIndex(c, pc), j) == (BitOf(pc, 2 + j) != BitOf(pc, 2 + c.basePow + j))
  {
    var w := Xor(Bits(pc / 4, c.basePow), Bits(pc / Pow2(2 + c.basePow), c.basePow));
    NumberBit(w, j);
    BitsAt(pc / 4, c.basePow, j);
    BitsAt(pc / Pow2(2 + c.basePow), c.basePow, j);
    AddressBit(pc, j);
    Shifted(pc, pc / Pow2(2 + c.basePow), 2 + c.basePow, j);
  }

  lemma AddressBit(pc: nat, j: nat)
    ensures BitOf(pc / 4, j) == BitOf(pc, 2 + j)
  {
    assert Pow2(2) == 4 by { assert Pow2(1) == 2 * Pow2(0); }
    Shifted(pc, pc / 4, 2, j);
  }

  /** Bit j of a component's index: address bit 2 + j and the history bits whose distance is j modulo the index width. */
  lemma CompIndexBit(c: Config, pc: nat, ghr: seq<bool>, comp: nat, j: nat)
    requires GoodConfig(c) && comp < |c.hist| && j < c.compPow
    ensures BitOf(CompIdx(c, pc, ghr, comp), j) == (BitOf(pc, 2 + j) != HistoryParity(ghr, 0, Looks(c.hist[comp]), c.compPow, j))
  {
    var h := FoldSpec(Register(ghr), c.hist[comp], c.compPow);
    NumberBit(Xor(Bits(pc / 4, c.compPow), h), j);
    BitsAt(pc / 4, c.compPow, j);
    AddressBit(pc, j);
    FoldBit(ghr, Register(ghr), 0, c.hist[comp], c.compPow, j);
  }

  /**
   Bit j of a tag: address bit 2 + j, the history bits whose distance is j modulo 8, and, from bit 1 on, the
   history without its newest bit, those whose distance in it is j - 1 modulo 7.
   */
  lemma TagBit(c: Config, pc: nat, ghr: seq<bool>, comp: nat, j: nat)
    requires GoodConfig(c) && comp < |c.hist| && j < 8
    ensures var len := c.hist[comp];
      var first := BitOf(pc, 2 + j) != HistoryParity(ghr, 0, Looks(len), 8, j);
      BitOf(CompTag(c, pc, ghr, comp), j) ==
        if j == 0 then first else first != HistoryParity(ghr, 1, Looks(if len > 1 then len - 1 else 1), 7, j - 1)
  {
    var len := c.hist[comp];
    var older := Low(ShiftRight(Register(ghr), 1), GHR_BITS);
    var h1 := FoldSpec(Register(ghr), len, 8);
    var h2 := FoldSpec(older, if len > 1 then len - 1 else 1, 7);
    NumberBit(Xor(Xor(Bits(pc / 4, 8), h1), [false] + h2), j);
    BitsAt(pc / 4, 8, j);
    AddressBit(pc, j);
    FoldBit(ghr, Register(ghr), 0, len, 8, j);
    if j > 0 { FoldBit(ghr, older, 1, if len > 1 then len - 1 else 1, 7, j - 1); }
  }
}

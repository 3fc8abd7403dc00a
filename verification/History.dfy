/**
 Speculative global history. GShare and Tournament keep a shift register and hand each prediction a
 copy of it; TAGE keeps the register, a 512-slot ring of copies, and hands out 32-bit wrapping slot
 ids. Directions come from the counter tables and are inputs here, so every statement below holds
 for any table contents. Registers are bit sequences, oldest bit first.
 */
module History {
  import opened Common

  const RING: nat := 512
  const WRAP: nat := 0x1_0000_0000

  datatype Mode = NoHistory | Gshare | Tage

  /** What a prediction carries to the point where the branch is resolved. */
  datatype Snap = NoSnap | Bits(bits: seq<bool>) | Slot(id: nat)

  /** The snapshot ring has a fixed number of slots. */
  type Ring = r: seq<seq<bool>> | |r| == RING witness seq(RING, _ => [])

  datatype Hist = Hist(mode: Mode, ghr: seq<bool>, ring: Ring, wr: nat)

  function Zeros(len: nat): (z: seq<bool>)
    ensures |z| == len
  {
    seq(len, _ => false)
  }

  function Init(mode: Mode, len: nat): Hist {
    Hist(mode, Zeros(len), seq(RING, _ => Zeros(len)), 0)
  }

  /** ((g << 1) | b) & mask, for a register of |g| bits. */
  function Shift(g: seq<bool>, b: bool): (r: seq<bool>)
    ensures |r| == |g|
  {
    if g == [] then [] else g[1..] + [b]
  }

  /** predict: TAGE stores a snapshot for every prediction but shifts only on a BTB hit. */
  function Predict(h: Hist, dir: bool, btbHit: bool): (Hist, Snap)
  {
    match h.mode
    case NoHistory => (h, NoSnap)
    case Gshare => (h.(ghr := Shift(h.ghr, dir)), Bits(h.ghr))
    case Tage =>
      (h.(ring := h.ring[h.wr % RING := h.ghr],
          wr := (h.wr + 1) % WRAP,
          ghr := if btbHit then Shift(h.ghr, dir) else h.ghr),
       Slot(h.wr))
  }

  /** The overflow guard, in 32-bit unsigned arithmetic. */
  predicate Fresh(wr: nat, id: nat) {
    (wr - id) % WRAP < RING
  }

  /** on_mispred */
  function Repair(h: Hist, actual: bool, snap: Snap): Hist
  {
    match snap
    case NoSnap => h
    case Bits(bits) => h.(ghr := Shift(bits, actual))
    case Slot(id) => if Fresh(h.wr, id) then h.(ghr := Shift(h.ring[id % RING], actual)) else h
  }

  /** The last `len` bits of a contribution sequence, padded with zeros on the old side. */
  function LastBits(contrib: seq<bool>, len: nat): (r: seq<bool>)
    ensures |r| == len
  {
    var padded := Zeros(len) + contrib;
    padded[|padded| - len..]
  }

  lemma LastBitsShift(contrib: seq<bool>, b: bool, len: nat)
    ensures LastBits(contrib + [b], len) == Shift(LastBits(contrib, len), b)
  {
    var p := Zeros(len) + contrib;
    assert Zeros(len) + (contrib + [b]) == p + [b];
    Slide(p, b, len);
  }

  lemma Slide(p: seq<bool>, b: bool, len: nat)
    requires len <= |p|
    ensures (p + [b])[|p| + 1 - len..] == Shift(p[|p| - len..], b)
  {
  }

  /**
   The ring against the unbounded log of the registers seen by each prediction so far: the slot of
   prediction m holds log[m] as long as at most 512 predictions (itself included) have been made since.
   */
  ghost predicate RingOk(h: Hist, log: seq<seq<bool>>) {
    && h.wr == |log| % WRAP
    && forall m :: 0 <= m < |log| && |log| - m <= RING ==> h.ring[m % RING] == log[m]
  }

  lemma PredictRing(h: Hist, log: seq<seq<bool>>, dir: bool, btbHit: bool)
    requires RingOk(h, log) && h.mode == Tage
    ensures RingOk(Predict(h, dir, btbHit).0, log + [h.ghr])
    ensures Predict(h, dir, btbHit).1 == Slot(|log| % WRAP)
  {
    var h' := Predict(h, dir, btbHit).0;
    var log' := log + [h.ghr];
    SlotOf(|log|);
    forall m | 0 <= m < |log'| && |log'| - m <= RING
      ensures h'.ring[m % RING] == log'[m]
    {
      if m < |log| {
        assert h.ring[m % RING] == log[m];
        DistinctSlots(m, |log|);
      }
    }
  }

  lemma SlotOf(m: nat)
    ensures (m % WRAP) % RING == m % RING
  {
    assert WRAP == RING * 0x80_0000;
    assert m == WRAP * (m / WRAP) + m % WRAP;
    assert m == RING * (0x80_0000 * (m / WRAP)) + m % WRAP;
    ModShift(m % WRAP, 0x80_0000 * (m / WRAP));
  }

  lemma {:induction false} ModShift(a: nat, k: nat)
    ensures (RING * k + a) % RING == a % RING
  {
    if k > 0 { ModShift(a, k - 1); }
  }

  lemma DistinctSlots(m: nat, n: nat)
    requires m < n < m + RING
    ensures m % RING != n % RING
  {
  }

  /** The guard accepts an id exactly when fewer than 512 predictions separate it from now, provided ids have not lapped. */
  lemma GuardExact(h: Hist, log: seq<seq<bool>>, m: nat)
    requires RingOk(h, log) && m < |log| && |log| - m < WRAP
    ensures Fresh(h.wr, m % WRAP) <==> |log| - m < RING
  {
    ModDiff(|log|, m);
  }

  lemma ModDiff(n: nat, m: nat)
    requires m <= n
    ensures (n % WRAP - m % WRAP) % WRAP == (n - m) % WRAP
  {
  }

  /** A repair inside the window restores the register this prediction saw, and appends the actual direction. */
  lemma RepairExact(h: Hist, log: seq<seq<bool>>, m: nat, actual: bool)
    requires RingOk(h, log) && m < |log| && |log| - m < RING
    ensures Repair(h, actual, Slot(m % WRAP)) == h.(ghr := Shift(log[m], actual))
  {
    GuardExact(h, log, m);
    SlotOf(m);
  }

  /** A repair outside the window changes nothing, so the wrong-path bits stay. */
  lemma RepairSkipped(h: Hist, log: seq<seq<bool>>, m: nat, actual: bool)
    requires RingOk(h, log) && m < |log| && RING <= |log| - m < WRAP
    ensures Repair(h, actual, Slot(m % WRAP)) == h
  {
    GuardExact(h, log, m);
  }

  /** Once ids have lapped, the guard can accept a snapshot that belongs to another prediction. */
  lemma LappedIdIsAccepted(h: Hist, log: seq<seq<bool>>, m: nat)
    requires RingOk(h, log) && m < |log| && |log| - m == WRAP + 1
    ensures Fresh(h.wr, m % WRAP) && h.ring[(m % WRAP) % RING] == log[|log| - 1]
  {
    assert Fresh(h.wr, m % WRAP) by { ModDiff(|log|, m); }
    var last := |log| - 1;
    assert last % RING == (m % WRAP) % RING by {
      SlotOf(m);
      assert last == RING * 0x80_0000 + m;
      ModShift(m, 0x80_0000);
    }
    assert h.ring[last % RING] == log[last];
  }
}

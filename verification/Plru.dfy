/** Tree pseudo-LRU: what three bits remember of an unbounded sequence of touches. */
module Plru {
  import opened Common
  import opened CacheBase

  predicate Supported(assoc: nat) {
    assoc == 1 || assoc == 2 || assoc == 4
  }

  predicate Ways(assoc: nat, ts: seq<nat>) {
    forall i :: 0 <= i < |ts| ==> ts[i] < assoc
  }

  /** The bits after a sequence of touches. */
  function After(assoc: nat, b: Bits, ts: seq<nat>): Bits {
    if ts == [] then b else PlruTouch(assoc, After(assoc, b, ts[..|ts| - 1]), ts[|ts| - 1])
  }

  predicate UpperHalf(w: nat) { w >= 2 }

  /** The other way of the same pair. */
  function Sibling(w: nat): nat {
    if w % 2 == 0 then w + 1 else w - 1
  }

  /** The last touch in one half; None if it was never touched. */
  function LastIn(ts: seq<nat>, upper: bool): Option<nat> {
    if ts == [] then None
    else if UpperHalf(ts[|ts| - 1]) == upper then Some(ts[|ts| - 1])
    else LastIn(ts[..|ts| - 1], upper)
  }

  /** The bits are: the half touched last, and the way touched last in each half. */
  lemma {:induction false} BitsAreHistory(b: Bits, ts: seq<nat>)
    requires Ways(4, ts) && ts != []
    ensures var a := After(4, b, ts);
      && a.b0 == UpperHalf(ts[|ts| - 1])
      && (LastIn(ts, false).Some? ==> a.b1 == (LastIn(ts, false).value % 2 == 1))
      && (LastIn(ts, true).Some? ==> a.b2 == (LastIn(ts, true).value % 2 == 1))
  {
    var n := |ts| - 1;
    if n > 0 { BitsAreHistory(b, ts[..n]); }
    assert ts[n] < 4;
  }

  lemma LastInHalf(ts: seq<nat>, upper: bool)
    requires Ways(4, ts)
    ensures LastIn(ts, upper).Some? ==> LastIn(ts, upper).value < 4 && UpperHalf(LastIn(ts, upper).value) == upper
  {
    if ts != [] { assert ts[|ts| - 1] < 4; }
  }

  /** With four ways the victim is the less recent way of the half that was not touched last. */
  lemma VictimIsOldOfOldHalf(b: Bits, ts: seq<nat>)
    requires Ways(4, ts) && ts != []
    requires LastIn(ts, !UpperHalf(ts[|ts| - 1])).Some?
    ensures PlruVictim(4, After(4, b, ts)) == Sibling(LastIn(ts, !UpperHalf(ts[|ts| - 1])).value)
  {
    BitsAreHistory(b, ts);
    LastInHalf(ts, !UpperHalf(ts[|ts| - 1]));
  }

  /** With two ways the victim is the way not touched last. */
  lemma VictimOfTwo(b: Bits, ts: seq<nat>)
    requires Ways(2, ts) && ts != []
    ensures PlruVictim(2, After(2, b, ts)) == 1 - ts[|ts| - 1]
  {
    assert ts[|ts| - 1] < 2;
  }

  /** w has been touched, and since then only w and v. */
  predicate OnlySince(ts: seq<nat>, from: nat, w: nat, v: nat) {
    from < |ts| && ts[from] == w && forall i :: from <= i < |ts| ==> ts[i] == w || ts[i] == v
  }

  /** Such a way is not the victim: two other ways must be touched before it can be. */
  lemma {:induction false} TouchedIsSafe(b: Bits, ts: seq<nat>, from: nat, w: nat, v: nat)
    requires Ways(4, ts) && w < 4 && v < 4 && OnlySince(ts, from, w, v)
    ensures PlruVictim(4, After(4, b, ts)) != w
    ensures UpperHalf(w) == UpperHalf(v) ==> After(4, b, ts).b0 == UpperHalf(w)
    ensures UpperHalf(w) != UpperHalf(v) ==>
      (if UpperHalf(w) then After(4, b, ts).b2 else After(4, b, ts).b1) == (w % 2 == 1)
  {
    var n := |ts| - 1;
    if from < n { TouchedIsSafe(b, ts[..n], from, w, v); }
    assert ts[n] == w || ts[n] == v;
  }

  /** Two others are enough: after w, its sibling, and a way of the other half, w is the victim. */
  lemma TwoOthersSuffice(b: Bits, ts: seq<nat>, w: nat, v: nat)
    requires w < 4 && v < 4 && UpperHalf(v) != UpperHalf(w)
    ensures PlruVictim(4, After(4, b, ts + [w, Sibling(w), v])) == w
  {
    var r := ts + [w, Sibling(w), v];
    var r2 := ts + [w, Sibling(w)];
    var r1 := ts + [w];
    assert r[..|r| - 1] == r2 && r2[..|r2| - 1] == r1 && r1[..|r1| - 1] == ts;
  }

  // ---------------------------------------------------------------- a run of misses

  /** The bits after n fills of the victim. */
  function AfterFills(assoc: nat, b: Bits, n: nat): Bits {
    if n == 0 then b
    else
      var p := AfterFills(assoc, b, n - 1);
      PlruTouch(assoc, p, PlruVictim(assoc, p))
  }

  function VictimAt(assoc: nat, b: Bits, n: nat): nat {
    PlruVictim(assoc, AfterFills(assoc, b, n))
  }

  lemma {:induction false} FillsCompose(assoc: nat, b: Bits, m: nat, n: nat)
    ensures AfterFills(assoc, b, m + n) == AfterFills(assoc, AfterFills(assoc, b, m), n)
  {
    if n > 0 { FillsCompose(assoc, b, m, n - 1); }
  }

  /** From any bits, `assoc` fills in a row go to different ways and then start over with the first. */
  lemma OneRound(assoc: nat, b: Bits)
    requires Supported(assoc)
    ensures forall i, j :: 0 <= i < j < assoc ==> VictimAt(assoc, b, i) != VictimAt(assoc, b, j)
    ensures VictimAt(assoc, b, assoc) == VictimAt(assoc, b, 0)
  {
    var b1 := AfterFills(assoc, b, 1);
    var b2 := AfterFills(assoc, b, 2);
    var b3 := AfterFills(assoc, b, 3);
    var b4 := AfterFills(assoc, b, 4);
  }

  /** Victims of consecutive misses are periodic, and any `assoc` in a row are distinct. */
  lemma FillsRotate(assoc: nat, b: Bits, n: nat)
    requires Supported(assoc)
    ensures VictimAt(assoc, b, n + assoc) == VictimAt(assoc, b, n)
    ensures forall i, j :: n <= i < j < n + assoc ==> VictimAt(assoc, b, i) != VictimAt(assoc, b, j)
  {
    var p := AfterFills(assoc, b, n);
    OneRound(assoc, p);
    FillsCompose(assoc, b, n, assoc);
    forall i, j | n <= i < j < n + assoc
      ensures VictimAt(assoc, b, i) != VictimAt(assoc, b, j)
    {
      FillsCompose(assoc, b, n, i - n);
      FillsCompose(assoc, b, n, j - n);
      assert VictimAt(assoc, p, i - n) != VictimAt(assoc, p, j - n);
    }
  }
}

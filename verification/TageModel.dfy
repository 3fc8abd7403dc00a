/** The TAGE predictor as the source has it: tables, ring and counters updated in place. */
module TageClass {
  import opened Common
  import opened Fold
  import opened Tage
  import H = History

  class TagePredictor {
    const cfg: Config
    var base: seq<nat>
    var comps: seq<seq<Entry>>
    var ghr: seq<bool>
    var ring: Ring
    var wr: nat
    var uReset: nat
    var stats: Stats

    ghost function Value(): State
      reads this
    {
      State(cfg, base, comps, ghr, ring, wr, uReset, stats)
    }

    constructor (c: Config)
      requires GoodConfig(c)
      ensures Value() == Init(c)
    {
      cfg := c;
      base := seq(Pow2(c.basePow), _ => 1);
      comps := seq(|c.hist|, _ => seq(Pow2(c.compPow), _ => Entry(0, 0, 0, false)));
      ghr := H.Zeros(GhrLen(c));
      ring := seq(H.RING, _ => EMPTY_SNAP.(ghr := H.Zeros(GhrLen(c))));
      wr, uReset := 0, 0;
      var none := seq(|c.hist|, _ => 0);
      stats := Stats(0, 0, 0, 0, 0, 0, 0, 0, 0, 0, none, none, none);
    }

    method CompIndex(pc: nat, comp: nat) returns (idx: nat)
      requires Sized(Value()) && comp < |comps|
      ensures idx == CompIdx(cfg, pc, ghr, comp)
    {
      hide FoldSpec, Pow2;
      var part := FoldGhr(Register(ghr), cfg.hist[comp], cfg.compPow);
      idx := ToNat(Xor(Bits(pc / 4, cfg.compPow), part));
    }

    method CompHash(pc: nat, comp: nat) returns (tag: nat)
      requires Sized(Value()) && comp < |comps|
      ensures tag == CompTag(cfg, pc, ghr, comp)
    {
      hide FoldSpec, Pow2;
      var len := cfg.hist[comp];
      var h1 := FoldGhr(Register(ghr), len, TAG_BITS);
      var h2 := FoldGhr(Low(ShiftRight(Register(ghr), 1), GHR_BITS), if len > 1 then len - 1 else 1, TAG_BITS - 1);
      tag := ToNat(Xor(Xor(Bits(pc / 4, TAG_BITS), h1), [false] + h2));
    }

    /** The first loop of predict: index, tag and hit of every component. */
    method ProbeAll(pc: nat) returns (fidx: seq<nat>, ftag: seq<nat>, hit: seq<bool>)
      requires Sized(Value())
      ensures fidx == Indices(cfg, pc, ghr) && ftag == Tags(cfg, pc, ghr) && hit == HitVector(Value(), pc)
    {
      hide Pow2, CompIdx, CompTag, GhrLen;
      fidx, ftag, hit := [], [], [];
      var i := 0;
      while i < |comps|
        invariant i <= |comps| && |fidx| == |ftag| == |hit| == i
        invariant forall k :: 0 <= k < i ==>
          && fidx[k] == CompIdx(cfg, pc, ghr, k)
          && ftag[k] == CompTag(cfg, pc, ghr, k)
          && hit[k] == Hits(Value(), pc, k)
      {
        var idx := CompIndex(pc, i);
        var tag := CompHash(pc, i);
        var e := comps[i][idx];
        fidx, ftag, hit := fidx + [idx], ftag + [tag], hit + [e.valid && e.tag == tag];
        i := i + 1;
      }
    }

    /** The second loop: the longest component that hits, and the next one. */
    method Providers(hit: seq<bool>) returns (provider: Option<nat>, alt: Option<nat>)
      ensures provider == LastHit(hit, |hit|)
      ensures alt == if provider.Some? then LastHit(hit, provider.value) else None
    {
      provider, alt := None, None;
      var i := |hit|;
      while i > 0
        invariant 0 <= i <= |hit|
        invariant provider.None? ==> LastHit(hit, |hit|) == LastHit(hit, i)
        invariant provider.Some? ==>
          && provider == LastHit(hit, |hit|)
          && i <= provider.value < |hit| && LastHit(hit, provider.value) == LastHit(hit, i)
        invariant alt.None?
      {
        i := i - 1;
        if hit[i] {
          if provider.None? {
            provider := Some(i);
          } else {
            alt := Some(i);
            return;
          }
        }
      }
    }

    method Ask(pc: nat, btbHit: bool) returns (p: Prediction)
      requires Sized(Value())
      modifies this`ring, this`wr, this`ghr
      ensures (Value(), p) == Predict(old(Value()), pc, btbHit)
    {
      hide Pow2, CompIdx, CompTag, GhrLen, Indices, Tags, HitVector, BaseIndex;
      var bimodal := base[BaseIndex(cfg, pc)] >= 2;
      var fidx, ftag, hit := ProbeAll(pc);
      var provider, alt := Providers(hit);
      assert forall k :: 0 <= k < |comps| ==> comps[k][fidx[k]] == EntryAt(Value(), pc, k);
      var altTaken := if alt.Some? then comps[alt.value][fidx[alt.value]].ctr >= 0 else bimodal;
      var ctr := 0;
      var taken := bimodal;
      if provider.Some? {
        var pe := comps[provider.value][fidx[provider.value]];
        ctr := pe.ctr;
        var weak := (pe.ctr == 0 || pe.ctr == -1) && pe.u == 0;
        taken := if weak then altTaken else ctr >= 0;
      }
      var snap := Snap(true, bimodal, taken, provider, ctr, altTaken, ghr, fidx, ftag);
      assert snap == Lookup(Value(), pc);
      p := Prediction(taken, wr, btbHit && taken != bimodal);
      ring := ring[wr % H.RING := snap];
      wr := (wr + 1) % H.WRAP;
      if btbHit { ghr := H.Shift(ghr, taken); }
    }

    // -------------------------------------------------------------- update

    method FindFree(snap: Snap, start: nat) returns (c: Option<nat>)
      requires Fits(comps, snap) && start <= |comps|
      ensures c == FirstFree(comps, snap, start)
    {
      c := None;
      var i := start;
      while i < |comps|
        invariant start <= i <= |comps| && FirstFree(comps, snap, start) == FirstFree(comps, snap, i)
      {
        var e := comps[i][snap.fidx[i]];
        if !e.valid || e.u == 0 { return Some(i); }
        i := i + 1;
      }
    }

    method AgeFrom(snap: Snap, start: nat)
      requires Fits(comps, snap) && start <= |comps|
      modifies this`comps
      ensures comps == Age(old(comps), snap, start)
    {
      ghost var aged := Age(comps, snap, start);
      var i := start;
      while i < |comps|
        invariant start <= i <= |comps| == |old(comps)| == |aged|
        invariant forall k :: 0 <= k < |comps| ==> comps[k] == if k < i then aged[k] else old(comps)[k]
      {
        var e := comps[i][snap.fidx[i]];
        if e.valid && e.u > 0 { comps := comps[i := comps[i][snap.fidx[i] := e.(u := e.u - 1)]]; }
        i := i + 1;
      }
    }

    method AllocateEntry(snap: Snap, taken: bool)
      requires Fits(comps, snap)
      modifies this`comps
      ensures comps == Allocate(old(comps), snap, taken)
    {
      if snap.taken == taken { return; }
      var start := if snap.provider.Some? then snap.provider.value + 1 else 0;
      if start < |comps| {
        var c := FindFree(snap, start);
        if c.None? {
          AgeFrom(snap, start);
        } else {
          var e := Entry(if taken then 0 else -1, 0, snap.ftag[c.value], true);
          comps := comps[c.value := comps[c.value][snap.fidx[c.value] := e]];
        }
      } else {
        assert Age(comps, snap, start) == comps;
      }
    }

    /** The periodic reset of the usefulness counters. */
    method HalveAll()
      modifies this`comps
      ensures comps == Halve(old(comps))
    {
      ghost var halved := Halve(comps);
      var i := 0;
      while i < |comps|
        invariant i <= |comps| == |old(comps)| == |halved|
        invariant forall k :: 0 <= k < |comps| ==> comps[k] == if k < i then halved[k] else old(comps)[k]
      {
        var row := comps[i];
        var k := 0;
        while k < |row|
          invariant k <= |row| == |old(comps)[i]|
          invariant forall j :: 0 <= j < |row| ==> row[j] == if j < k then halved[i][j] else old(comps)[i][j]
        {
          if row[k].valid { row := row[k := row[k].(u := row[k].u / 2)]; }
          k := k + 1;
        }
        assert row == halved[i];
        comps := comps[i := row];
        i := i + 1;
      }
    }

    /** The provider's counter and usefulness. */
    method TrainEntry(snap: Snap, taken: bool)
      requires Fits(comps, snap)
      modifies this`comps
      ensures comps == TrainProvider(old(comps), snap, taken)
    {
      if snap.provider.None? { return; }
      var p := snap.provider.value;
      var idx := snap.fidx[p];
      var e := comps[p][idx];
      if taken {
        if e.ctr < CTR_MAX { e := e.(ctr := e.ctr + 1); }
      } else {
        if e.ctr > CTR_MIN { e := e.(ctr := e.ctr - 1); }
      }
      var said := snap.providerCtr >= 0;
      if said != snap.altTaken {
        if said == taken {
          if e.u < U_MAX { e := e.(u := e.u + 1); }
        } else {
          if e.u > 0 { e := e.(u := e.u - 1); }
        }
      }
      comps := comps[p := comps[p][idx := e]];
    }

    method TrainOn(pc: nat, taken: bool, id: nat)
      requires Sized(Value())
      modifies this`base, this`comps, this`uReset, this`ring
      ensures Value() == Update(old(Value()), pc, taken, id)
    {
      hide Pow2, GhrLen, BaseIndex, Allocate, TrainProvider, Halve;
      if (wr - id) % H.WRAP >= H.RING { return; }
      var snap := ring[id % H.RING];
      if !snap.valid { return; }
      var bi := BaseIndex(cfg, pc);
      var cnt := base[bi];
      if taken {
        if cnt < 3 { base := base[bi := cnt + 1]; }
      } else {
        if cnt > 0 { base := base[bi := cnt - 1]; }
      }
      TrainEntry(snap, taken);
      AllocateEntry(snap, taken);
      uReset := uReset + 1;
      if uReset >= U_RESET_PERIOD {
        uReset := 0;
        HalveAll();
      }
      ring := ring[id % H.RING := snap.(valid := false)];
    }

    method Repair(actual: bool, id: nat)
      modifies this`ghr
      ensures Value() == OnMispred(old(Value()), actual, id)
    {
      if (wr - id) % H.WRAP >= H.RING { return; }
      ghr := H.Shift(ring[id % H.RING].ghr, actual);
    }

    method CountAll(st0: Stats, snap: Snap, actual: bool, overrode: bool) returns (st: Stats)
      requires snap.provider.Some? ==> snap.provider.value < |st0.compUsed| == |st0.compCorrect| == |st0.compMispred|
      ensures st == Count(st0, snap, actual, overrode)
    {
      st := st0;
      var ok := snap.taken == actual;
      if ok { st := st.(tageCorrect := st.tageCorrect + 1); } else { st := st.(tageMispred := st.tageMispred + 1); }
      if snap.bimodalTaken == actual {
        st := st.(bimodalCorrect := st.bimodalCorrect + 1);
      } else {
        st := st.(bimodalMispred := st.bimodalMispred + 1);
      }
      if overrode {
        st := st.(overrides := st.overrides + 1);
        if ok { st := st.(helpful := st.helpful + 1); } else { st := st.(harmful := st.harmful + 1); }
      }
      if snap.provider.None? {
        st := st.(baseUsed := st.baseUsed + 1);
        if ok { st := st.(baseCorrect := st.baseCorrect + 1); } else { st := st.(baseMispred := st.baseMispred + 1); }
      } else {
        var p := snap.provider.value;
        st := st.(compUsed := st.compUsed[p := st.compUsed[p] + 1]);
        if ok {
          st := st.(compCorrect := st.compCorrect[p := st.compCorrect[p] + 1]);
        } else {
          st := st.(compMispred := st.compMispred[p := st.compMispred[p] + 1]);
        }
      }
    }

    method CountResolved(actual: bool, overrode: bool, id: nat)
      requires Sized(Value())
      modifies this`stats
      ensures Value() == OnResolved(old(Value()), actual, overrode, id)
    {
      hide Pow2, GhrLen;
      if (wr - id) % H.WRAP >= H.RING { return; }
      var snap := ring[id % H.RING];
      if !snap.valid { return; }
      stats := CountAll(stats, snap, actual, overrode);
    }
  }
}

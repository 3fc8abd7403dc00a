/**
 The TAGE predictor: a base table, tagged components with growing history, a ring of prediction snapshots
 and the accuracy counters. History registers are bit sequences, oldest bit first, as in History.
 */
module Tage {
  import opened Common
  import opened Fold
  import H = History

  const MAX_COMP: nat := 8
  const TAG_BITS: nat := 8
  const CTR_MAX: int := 3
  const CTR_MIN: int := -4
  const U_MAX: nat := 3
  const U_RESET_PERIOD: nat := 0x4_0000

  /** log2 of the table sizes, and the history length of each component. */
  datatype Config = Config(basePow: nat, compPow: nat, hist: seq<nat>)

  predicate GoodConfig(c: Config) {
    && 1 <= |c.hist| <= MAX_COMP && c.basePow < 32 && 1 <= c.compPow < 32
    && forall i :: 0 <= i < |c.hist| ==> c.hist[i] >= 1
  }

  /** The register keeps as many bits as the last component looks at, at most 64. */
  function GhrLen(c: Config): (n: nat)
    requires GoodConfig(c)
    ensures 1 <= n <= GHR_BITS
  {
    var longest := c.hist[|c.hist| - 1];
    if longest < GHR_BITS then longest else GHR_BITS
  }

  datatype Entry = Entry(ctr: int, u: nat, tag: nat, valid: bool)

  /** What a prediction leaves for its resolution; the fields that nothing reads are left out. */
  datatype Snap = Snap(
    valid: bool,
    bimodalTaken: bool,
    taken: bool,
    provider: Option<nat>,
    providerCtr: int,
    altTaken: bool,
    ghr: seq<bool>,
    fidx: seq<nat>,
    ftag: seq<nat>)

  datatype Stats = Stats(
    tageCorrect: nat, tageMispred: nat,
    bimodalCorrect: nat, bimodalMispred: nat,
    overrides: nat, helpful: nat, harmful: nat,
    baseUsed: nat, baseCorrect: nat, baseMispred: nat,
    compUsed: seq<nat>, compCorrect: seq<nat>, compMispred: seq<nat>)

  type Ring = r: seq<Snap> | |r| == H.RING witness seq(H.RING, _ => EMPTY_SNAP)

  const EMPTY_SNAP := Snap(false, false, false, None, 0, false, [], [], [])

  datatype State = State(
    cfg: Config,
    base: seq<nat>,
    comps: seq<seq<Entry>>,
    ghr: seq<bool>,
    ring: Ring,
    wr: nat,
    uReset: nat,
    stats: Stats)

  // ---------------------------------------------------------------- indices and tags

  function Pow2(k: nat): (p: nat)
    ensures p > 0
  {
    if k == 0 then 1 else 2 * Pow2(k - 1)
  }

  /** The low k bits of a number. */
  function Bits(n: nat, k: nat): (w: Word)
    ensures |w| == k
  {
    if k == 0 then [] else [n % 2 == 1] + Bits(n / 2, k - 1)
  }

  function ToNat(w: Word): (n: nat)
    ensures n < Pow2(|w|)
  {
    if w == [] then 0 else (if w[0] then 1 else 0) + 2 * ToNat(w[1..])
  }

  /** The register as a 64-bit word, newest bit first. */
  function Register(ghr: seq<bool>): (w: Word)
    ensures |w| == GHR_BITS
  {
    seq(GHR_BITS, i requires 0 <= i => i < |ghr| && ghr[|ghr| - 1 - i])
  }

  function BaseIndex(c: Config, pc: nat): (i: nat)
    ensures i < Pow2(c.basePow)
  {
    ToNat(Xor(Bits(pc / 4, c.basePow), Bits(pc / Pow2(2 + c.basePow), c.basePow)))
  }

  /** comp_idx */
  function CompIdx(c: Config, pc: nat, ghr: seq<bool>, comp: nat): (i: nat)
    requires GoodConfig(c) && comp < |c.hist|
    ensures i < Pow2(c.compPow)
  {
    ToNat(Xor(Bits(pc / 4, c.compPow), FoldSpec(Register(ghr), c.hist[comp], c.compPow)))
  }

  /** comp_tag */
  function CompTag(c: Config, pc: nat, ghr: seq<bool>, comp: nat): (t: nat)
    requires GoodConfig(c) && comp < |c.hist|
    ensures t < Pow2(TAG_BITS)
  {
    var len := c.hist[comp];
    var h1 := FoldSpec(Register(ghr), len, TAG_BITS);
    var h2 := FoldSpec(Low(ShiftRight(Register(ghr), 1), GHR_BITS), if len > 1 then len - 1 else 1, TAG_BITS - 1);
    ToNat(Xor(Xor(Bits(pc / 4, TAG_BITS), h1), [false] + h2))
  }

  function Indices(c: Config, pc: nat, ghr: seq<bool>): (r: seq<nat>)
    requires GoodConfig(c)
    ensures |r| == |c.hist| && forall i :: 0 <= i < |r| ==> r[i] == CompIdx(c, pc, ghr, i) < Pow2(c.compPow)
  {
    seq(|c.hist|, i requires 0 <= i < |c.hist| => CompIdx(c, pc, ghr, i))
  }

  function Tags(c: Config, pc: nat, ghr: seq<bool>): (r: seq<nat>)
    requires GoodConfig(c)
    ensures |r| == |c.hist| && forall i :: 0 <= i < |r| ==> r[i] == CompTag(c, pc, ghr, i)
  {
    seq(|c.hist|, i requires 0 <= i < |c.hist| => CompTag(c, pc, ghr, i))
  }

  // ---------------------------------------------------------------- shape

  predicate SnapOk(c: Config, s: Snap)
    requires GoodConfig(c)
  {
    && |s.fidx| == |s.ftag| == |c.hist|
    && (forall i :: 0 <= i < |s.fidx| ==> s.fidx[i] < Pow2(c.compPow))
    && (s.provider.Some? ==> s.provider.value < |c.hist|)
  }

  predicate Sized(s: State) {
    && GoodConfig(s.cfg)
    && |s.base| == Pow2(s.cfg.basePow)
    && |s.comps| == |s.cfg.hist| && (forall i :: 0 <= i < |s.comps| ==> |s.comps[i]| == Pow2(s.cfg.compPow))
    && |s.ghr| == GhrLen(s.cfg)
    && |s.stats.compUsed| == |s.stats.compCorrect| == |s.stats.compMispred| == |s.cfg.hist|
    && s.wr < H.WRAP
    && forall k :: 0 <= k < H.RING ==> |s.ring[k].ghr| == |s.ghr| && (s.ring[k].valid ==> SnapOk(s.cfg, s.ring[k]))
  }

  predicate EntryOk(e: Entry) {
    CTR_MIN <= e.ctr <= CTR_MAX && e.u <= U_MAX
  }

  predicate CompsOk(comps: seq<seq<Entry>>) {
    forall i, k :: 0 <= i < |comps| && 0 <= k < |comps[i]| ==> EntryOk(comps[i][k])
  }

  /** Counters in range, tables and snapshots in shape. */
  predicate TablesOk(s: State) {
    && Sized(s) && CompsOk(s.comps)
    && forall k :: 0 <= k < |s.base| ==> s.base[k] <= 3
  }

  function Init(c: Config): State
    requires GoodConfig(c)
  {
    var none := seq(|c.hist|, _ => 0);
    State(c, seq(Pow2(c.basePow), _ => 1), seq(|c.hist|, _ => seq(Pow2(c.compPow), _ => Entry(0, 0, 0, false))),
          H.Zeros(GhrLen(c)), seq(H.RING, _ => EMPTY_SNAP.(ghr := H.Zeros(GhrLen(c)))), 0, 0,
          Stats(0, 0, 0, 0, 0, 0, 0, 0, 0, 0, none, none, none))
  }

  // ---------------------------------------------------------------- predict

  /** The highest component below n that hits. */
  function LastHit(hit: seq<bool>, n: nat): (p: Option<nat>)
    requires n <= |hit|
    ensures p.Some? ==> p.value < n && hit[p.value]
    ensures forall i :: (if p.Some? then p.value + 1 else 0) <= i < n ==> !hit[i]
  {
    if n == 0 then None else if hit[n - 1] then Some(n - 1) else LastHit(hit, n - 1)
  }

  function EntryAt(s: State, pc: nat, comp: nat): Entry
    requires Sized(s) && comp < |s.comps|
  {
    s.comps[comp][CompIdx(s.cfg, pc, s.ghr, comp)]
  }

  predicate Hits(s: State, pc: nat, comp: nat)
    requires Sized(s) && comp < |s.comps|
  {
    EntryAt(s, pc, comp).valid && EntryAt(s, pc, comp).tag == CompTag(s.cfg, pc, s.ghr, comp)
  }

  function HitVector(s: State, pc: nat): (h: seq<bool>)
    requires Sized(s)
    ensures |h| == |s.comps|
  {
    seq(|s.comps|, i requires 0 <= i < |s.comps| => Hits(s, pc, i))
  }

  /** Just allocated: a weak counter and no use yet. */
  predicate Weak(e: Entry) {
    (e.ctr == 0 || e.ctr == -1) && e.u == 0
  }

  /** The snapshot of a prediction. */
  function Lookup(s: State, pc: nat): (r: Snap)
    requires Sized(s)
    ensures SnapOk(s.cfg, r)
  {
    var hit := HitVector(s, pc);
    var bimodal := s.base[BaseIndex(s.cfg, pc)] >= 2;
    var provider := LastHit(hit, |hit|);
    var alt := if provider.Some? then LastHit(hit, provider.value) else None;
    var altTaken := if alt.Some? then EntryAt(s, pc, alt.value).ctr >= 0 else bimodal;
    var taken := if provider.None? then bimodal
                 else if Weak(EntryAt(s, pc, provider.value)) then altTaken
                 else EntryAt(s, pc, provider.value).ctr >= 0;
    Snap(true, bimodal, taken, provider, if provider.Some? then EntryAt(s, pc, provider.value).ctr else 0, altTaken, s.ghr,
         Indices(s.cfg, pc, s.ghr), Tags(s.cfg, pc, s.ghr))
  }

  datatype Prediction = Prediction(taken: bool, id: nat, overrode: bool)

  function Predict(s: State, pc: nat, btbHit: bool): (State, Prediction)
    requires Sized(s)
  {
    var snap := Lookup(s, pc);
    (s.(ring := s.ring[s.wr % H.RING := snap],
        wr := (s.wr + 1) % H.WRAP,
        ghr := if btbHit then H.Shift(s.ghr, snap.taken) else s.ghr),
     Prediction(snap.taken, s.wr, btbHit && snap.taken != snap.bimodalTaken))
  }

  // ---------------------------------------------------------------- update

  function Saturate(cnt: nat, taken: bool): nat {
    if taken then (if cnt < 3 then cnt + 1 else cnt) else if cnt > 0 then cnt - 1 else cnt
  }

  /** update_ctr */
  function UpdateCtr(ctr: int, taken: bool): int {
    if taken then (if ctr < CTR_MAX then ctr + 1 else ctr) else if ctr > CTR_MIN then ctr - 1 else ctr
  }

  /** The provider's counter, and its usefulness when it and the alternative disagreed. */
  function Train(e: Entry, snap: Snap, taken: bool): Entry {
    var said := snap.providerCtr >= 0;
    var u := if said == snap.altTaken then e.u
             else if said == taken then (if e.u < U_MAX then e.u + 1 else e.u)
             else if e.u > 0 then e.u - 1 else e.u;
    e.(ctr := UpdateCtr(e.ctr, taken), u := u)
  }

  function WithEntry(comps: seq<seq<Entry>>, comp: nat, idx: nat, e: Entry): (r: seq<seq<Entry>>)
    requires comp < |comps| && idx < |comps[comp]|
    ensures |r| == |comps| && forall i :: 0 <= i < |r| ==> |r[i]| == |comps[i]|
    ensures forall i, k :: 0 <= i < |r| && 0 <= k < |r[i]| ==> r[i][k] == if i == comp && k == idx then e else comps[i][k]
  {
    comps[comp := comps[comp][idx := e]]
  }

  /** The snapshot's indices fit the tables. */
  predicate Fits(comps: seq<seq<Entry>>, snap: Snap) {
    && |snap.fidx| == |snap.ftag| == |comps|
    && (forall i :: 0 <= i < |comps| ==> snap.fidx[i] < |comps[i]|)
    && (snap.provider.Some? ==> snap.provider.value < |comps|)
  }

  predicate Free(comps: seq<seq<Entry>>, snap: Snap, i: nat)
    requires Fits(comps, snap) && i < |comps|
  {
    !comps[i][snap.fidx[i]].valid || comps[i][snap.fidx[i]].u == 0
  }

  /** The lowest component from start on with a free entry. */
  function FirstFree(comps: seq<seq<Entry>>, snap: Snap, start: nat): (c: Option<nat>)
    requires Fits(comps, snap) && start <= |comps|
    ensures c.Some? ==> start <= c.value < |comps| && Free(comps, snap, c.value)
    ensures forall i :: start <= i < (if c.Some? then c.value else |comps|) ==> !Free(comps, snap, i)
    decreases |comps| - start
  {
    if start == |comps| then None else if Free(comps, snap, start) then Some(start) else FirstFree(comps, snap, start + 1)
  }

  /** All entries of the snapshot from start on lose one use. */
  function Age(comps: seq<seq<Entry>>, snap: Snap, start: nat): (r: seq<seq<Entry>>)
    requires Fits(comps, snap) && start <= |comps|
    ensures |r| == |comps| && forall i :: 0 <= i < |r| ==> |r[i]| == |comps[i]|
  {
    seq(|comps|, i requires 0 <= i < |comps| =>
      var e := comps[i][snap.fidx[i]];
      if i >= start && e.valid && e.u > 0 then comps[i][snap.fidx[i] := e.(u := e.u - 1)] else comps[i])
  }

  /** Allocation after a wrong final prediction, above the provider. */
  function Allocate(comps: seq<seq<Entry>>, snap: Snap, taken: bool): (r: seq<seq<Entry>>)
    requires Fits(comps, snap)
    ensures |r| == |comps| && forall i :: 0 <= i < |r| ==> |r[i]| == |comps[i]|
  {
    var start := if snap.provider.Some? then snap.provider.value + 1 else 0;
    var c := FirstFree(comps, snap, start);
    if snap.taken == taken then comps
    else if c.None? then Age(comps, snap, start)
    else WithEntry(comps, c.value, snap.fidx[c.value], Entry(if taken then 0 else -1, 0, snap.ftag[c.value], true))
  }

  function Halve(comps: seq<seq<Entry>>): (r: seq<seq<Entry>>)
    ensures |r| == |comps| && forall i :: 0 <= i < |r| ==> |r[i]| == |comps[i]|
  {
    seq(|comps|, i requires 0 <= i < |comps| =>
      seq(|comps[i]|, k requires 0 <= k < |comps[i]| =>
        if comps[i][k].valid then comps[i][k].(u := comps[i][k].u / 2) else comps[i][k]))
  }

  function TrainProvider(comps: seq<seq<Entry>>, snap: Snap, taken: bool): (r: seq<seq<Entry>>)
    requires Fits(comps, snap)
    ensures |r| == |comps| && forall i :: 0 <= i < |r| ==> |r[i]| == |comps[i]|
  {
    if snap.provider.None? then comps
    else
      var p := snap.provider.value;
      WithEntry(comps, p, snap.fidx[p], Train(comps[p][snap.fidx[p]], snap, taken))
  }

  /** The component tables after training with one snapshot. */
  function TrainTables(comps: seq<seq<Entry>>, snap: Snap, taken: bool, halve: bool): (r: seq<seq<Entry>>)
    requires Fits(comps, snap)
    ensures |r| == |comps| && forall i :: 0 <= i < |r| ==> |r[i]| == |comps[i]|
  {
    var c := Allocate(TrainProvider(comps, snap, taken), snap, taken);
    if halve then Halve(c) else c
  }

  predicate Trains(s: State, id: nat) {
    H.Fresh(s.wr, id) && s.ring[id % H.RING].valid
  }

  function Update(s: State, pc: nat, taken: bool, id: nat): State
    requires Sized(s)
  {
    if !Trains(s, id) then s
    else
      var slot := id % H.RING;
      var snap := s.ring[slot];
      var bi := BaseIndex(s.cfg, pc);
      var halve := s.uReset + 1 >= U_RESET_PERIOD;
      s.(base := s.base[bi := Saturate(s.base[bi], taken)],
         comps := TrainTables(s.comps, snap, taken, halve),
         uReset := if halve then 0 else s.uReset + 1,
         ring := s.ring[slot := snap.(valid := false)])
  }

  /** on_mispred */
  function OnMispred(s: State, actual: bool, id: nat): State {
    if H.Fresh(s.wr, id) then s.(ghr := H.Shift(s.ring[id % H.RING].ghr, actual)) else s
  }

  function Count(st: Stats, snap: Snap, actual: bool, overrode: bool): Stats
    requires snap.provider.Some? ==> snap.provider.value < |st.compUsed| == |st.compCorrect| == |st.compMispred|
  {
    var ok := snap.taken == actual;
    var one := if ok then 1 else 0;
    var bim := if snap.bimodalTaken == actual then 1 else 0;
    var ov := if overrode then 1 else 0;
    var st1 := st.(
      tageCorrect := st.tageCorrect + one, tageMispred := st.tageMispred + 1 - one,
      bimodalCorrect := st.bimodalCorrect + bim, bimodalMispred := st.bimodalMispred + 1 - bim,
      overrides := st.overrides + ov, helpful := st.helpful + ov * one, harmful := st.harmful + ov * (1 - one));
    if snap.provider.None? then
      st1.(baseUsed := st.baseUsed + 1, baseCorrect := st.baseCorrect + one, baseMispred := st.baseMispred + 1 - one)
    else
      var p := snap.provider.value;
      st1.(compUsed := st.compUsed[p := st.compUsed[p] + 1],
           compCorrect := st.compCorrect[p := st.compCorrect[p] + one],
           compMispred := st.compMispred[p := st.compMispred[p] + 1 - one])
  }

  /** on_resolved */
  function OnResolved(s: State, actual: bool, overrode: bool, id: nat): State
    requires Sized(s)
  {
    if !Trains(s, id) then s else s.(stats := Count(s.stats, s.ring[id % H.RING], actual, overrode))
  }
}

/** What training does to the counters of TAGE, one resolution at a time and over whole runs. */
module TageTraining {
  import opened Common
  import opened Tage
  import opened TageRuns
  import H = History

  /** n steps towards taken or not taken, stopping at a limit. */
  function Toward(from: int, n: nat, taken: bool, low: int, high: int): int {
    if taken then (if from + n < high then from + n else high) else if from - n > low then from - n else low
  }

  /** The entry that gave the prediction with a given id. */
  predicate ProvidedBy(s: State, id: nat, p: nat, k: nat) {
    var snap := s.ring[id % 512];
    snap.provider == Some(p) && p < |snap.fidx| && snap.fidx[p] == k
  }

  // ---------------------------------------------------------------- one resolution

  /** The base counter of the branch goes one step towards the outcome, between 0 and 3; the others stay. */
  lemma BaseMoves(s: State, pc: nat, taken: bool, id: nat)
    requires TablesOk(s) && Trains(s, id)
    ensures var s' := Update(s, pc, taken, id);
      var b := BaseIndex(s.cfg, pc);
      && |s'.base| == |s.base| && b < |s.base| && s.base[b] <= 3
      && s'.base[b] == Toward(s.base[b], 1, taken, 0, 3)
      && forall i :: 0 <= i < |s.base| && i != b ==> s'.base[i] == s.base[i]
  {
    hide BaseIndex, TrainTables, CompsOk, Pow2;
  }

  /** The counter of the entry that gave the prediction goes one step towards the outcome, between -4 and 3; its tag stays. */
  lemma ProviderMoves(s: State, pc: nat, taken: bool, id: nat, p: nat, k: nat)
    requires TablesOk(s) && Trains(s, id) && ProvidedBy(s, id, p, k)
    ensures var s' := Update(s, pc, taken, id);
      && |s'.comps| == |s.comps| && p < |s.comps| && |s'.comps[p]| == |s.comps[p]| && k < |s.comps[p]|
      && -4 <= s.comps[p][k].ctr <= 3
      && s'.comps[p][k].ctr == Toward(s.comps[p][k].ctr, 1, taken, -4, 3)
      && s'.comps[p][k].tag == s.comps[p][k].tag && s'.comps[p][k].valid == s.comps[p][k].valid
  {
    hide BaseIndex, Pow2, GhrLen, FirstFree;
    assert EntryOk(s.comps[p][k]);
  }

  /**
   The use counter of that entry: one up, at most to 3, if its own direction was right and the alternative's was
   not; one down, at least to 0, if it was the other way round; as before if both agreed.
   */
  lemma UseMoves(s: State, pc: nat, taken: bool, id: nat, p: nat, k: nat)
    requires TablesOk(s) && Trains(s, id) && ProvidedBy(s, id, p, k) && s.uReset + 1 < 262144
    ensures var s' := Update(s, pc, taken, id);
      var own, alt := s.ring[id % 512].providerCtr >= 0, s.ring[id % 512].altTaken;
      && |s'.comps| == |s.comps| && p < |s.comps| && |s'.comps[p]| == |s.comps[p]| && k < |s.comps[p]|
      && s.comps[p][k].u <= 3
      && s'.comps[p][k].u ==
           (if own == taken && alt != taken then (if s.comps[p][k].u == 3 then 3 else s.comps[p][k].u + 1)
            else if own != taken && alt == taken then (if s.comps[p][k].u == 0 then 0 else s.comps[p][k].u - 1)
            else s.comps[p][k].u)
  {
    hide BaseIndex, Pow2, GhrLen, FirstFree;
    assert EntryOk(s.comps[p][k]);
  }

  /** The candidates for an allocation: entries of the prediction in the components above the one that gave it. */
  predicate Above(snap: Snap, i: nat) {
    i < |snap.fidx| && (snap.provider.Some? ==> i > snap.provider.value)
  }

  predicate InUse(s: State, snap: Snap, i: nat)
    requires Sized(s) && SnapOk(s.cfg, snap) && i < |snap.fidx|
  {
    s.comps[i][snap.fidx[i]].valid && s.comps[i][snap.fidx[i]].u > 0
  }

  /** A right prediction allocates nothing; every entry but the one that gave it stays. */
  lemma RightKeepsOthers(s: State, pc: nat, taken: bool, id: nat, i: nat, k: nat)
    requires TablesOk(s) && Trains(s, id) && s.ring[id % 512].taken == taken && s.uReset + 1 < 262144
    requires i < |s.comps| && k < |s.comps[i]| && !ProvidedBy(s, id, i, k)
    ensures var s' := Update(s, pc, taken, id); |s'.comps| == |s.comps| && |s'.comps[i]| == |s.comps[i]| && s'.comps[i][k] == s.comps[i][k]
  {
    hide BaseIndex, Pow2, GhrLen, FirstFree;
  }

  lemma SameCandidates(s: State, snap: Snap, taken: bool)
    requires Sized(s) && SnapOk(s.cfg, snap)
    ensures Fits(s.comps, snap) && Fits(TrainProvider(s.comps, snap, taken), snap)
    ensures var c1 := TrainProvider(s.comps, snap, taken);
      forall j :: (if snap.provider.Some? then snap.provider.value + 1 else 0) <= j < |s.comps| ==>
        Free(c1, snap, j) == !InUse(s, snap, j) && Above(snap, j) && c1[j] == s.comps[j]
  {
    hide Pow2, GhrLen;
  }

  /** A wrong prediction takes the lowest candidate that is not in use: weak in the direction of the outcome, useless, with the tag of the prediction. */
  lemma WrongAllocates(s: State, pc: nat, taken: bool, id: nat, a: nat, i: nat, k: nat)
    requires TablesOk(s) && Trains(s, id) && s.ring[id % 512].taken != taken && s.uReset + 1 < 262144
    requires SnapOk(s.cfg, s.ring[id % 512]) && Above(s.ring[id % 512], a) && !InUse(s, s.ring[id % 512], a)
    requires forall j :: 0 <= j < a && Above(s.ring[id % 512], j) ==> InUse(s, s.ring[id % 512], j)
    requires i < |s.comps| && k < |s.comps[i]| && !ProvidedBy(s, id, i, k)
    ensures var s' := Update(s, pc, taken, id);
      var snap := s.ring[id % 512];
      && |s'.comps| == |s.comps| && |s'.comps[i]| == |s.comps[i]|
      && s'.comps[i][k] == if i == a && k == snap.fidx[a] then Entry(if taken then 0 else -1, 0, snap.ftag[a], true) else s.comps[i][k]
  {
    hide BaseIndex, Pow2, GhrLen;
    var snap := s.ring[id % 512];
    var c1 := TrainProvider(s.comps, snap, taken);
    SameCandidates(s, snap, taken);
    LowestFree(c1, snap, if snap.provider.Some? then snap.provider.value + 1 else 0, a);
  }

  lemma {:induction false} LowestFree(comps: seq<seq<Entry>>, snap: Snap, start: nat, a: nat)
    requires Fits(comps, snap) && start <= a < |comps| && Free(comps, snap, a) && forall j :: start <= j < a ==> !Free(comps, snap, j)
    ensures FirstFree(comps, snap, start) == Some(a)
    decreases a - start
  {
    if start < a { LowestFree(comps, snap, start + 1, a); }
  }

  /** A wrong prediction that finds every candidate in use takes one use from each of them and allocates nothing. */
  lemma WrongAges(s: State, pc: nat, taken: bool, id: nat, i: nat, k: nat)
    requires TablesOk(s) && Trains(s, id) && s.ring[id % 512].taken != taken && s.uReset + 1 < 262144
    requires SnapOk(s.cfg, s.ring[id % 512])
    requires forall j :: 0 <= j < |s.comps| && Above(s.ring[id % 512], j) ==> InUse(s, s.ring[id % 512], j)
    requires i < |s.comps| && k < |s.comps[i]| && !ProvidedBy(s, id, i, k)
    ensures var s' := Update(s, pc, taken, id);
      var snap := s.ring[id % 512];
      && |s'.comps| == |s.comps| && |s'.comps[i]| == |s.comps[i]|
      && (if Above(snap, i) && k == snap.fidx[i]
          then s.comps[i][k].u >= 1 && s'.comps[i][k] == s.comps[i][k].(u := s.comps[i][k].u - 1)
          else s'.comps[i][k] == s.comps[i][k])
  {
    hide BaseIndex, Pow2, GhrLen;
    var snap := s.ring[id % 512];
    var c1 := TrainProvider(s.comps, snap, taken);
    SameCandidates(s, snap, taken);
    assert FirstFree(c1, snap, if snap.provider.Some? then snap.provider.value + 1 else 0).None?;
  }

  /** The training that completes a period halves the use counter of every valid entry, after doing what it does otherwise. */
  lemma PeriodHalves(s: State, pc: nat, taken: bool, id: nat, i: nat, k: nat)
    requires TablesOk(s) && Trains(s, id) && s.uReset + 1 >= 262144 && i < |s.comps| && k < |s.comps[i]|
    ensures var s' := Update(s, pc, taken, id);
      var other := Update(s.(uReset := 0), pc, taken, id);
      && s'.uReset == 0 && other.uReset == 1
      && |s'.comps| == |other.comps| == |s.comps| && |s'.comps[i]| == |other.comps[i]| == |s.comps[i]|
      && s'.comps[i][k] == if other.comps[i][k].valid then other.comps[i][k].(u := other.comps[i][k].u / 2) else other.comps[i][k]
  {
    hide BaseIndex, Pow2, GhrLen, Allocate, TrainProvider;
  }

  /** The period is 262144 trainings. */
  lemma {:induction false} PeriodCounts(c: Config, es: seq<Event>)
    requires GoodConfig(c) && Run(c, es).Some?
    ensures Run(c, es).value.s.uReset == |Run(c, es).value.trained| % 262144
  {
    hide Possible, GoodConfig;
    if es != [] {
      var t := Run(c, es[..|es| - 1]).value;
      PeriodCounts(c, es[..|es| - 1]);
      PeriodStep(t, es[|es| - 1]);
      NextOfPeriod(|t.trained|);
    }
  }

  lemma NextOfPeriod(n: nat)
    ensures (n + 1) % 262144 == if n % 262144 + 1 >= 262144 then 0 else n % 262144 + 1
  {
  }

  lemma PeriodStep(t: Track, e: Event)
    requires Possible(t, e)
    ensures var t' := Step(t, e);
      || (t'.s.uReset == t.s.uReset && t'.trained == t.trained)
      || (|t'.trained| == |t.trained| + 1 && t'.s.uReset == if t.s.uReset + 1 >= 262144 then 0 else t.s.uReset + 1)
  {
    hide BaseIndex, Pow2, GhrLen, TrainTables, Lookup, Count, Sized, Trains;
    if e.Resolve? { CountSizedToo(t, e.m, e.actual); }
  }

  lemma CountSizedToo(t: Track, m: nat, actual: bool)
    requires Sized(t.s) && m < |t.log|
    ensures var t' := CountStep(t, m, actual); Sized(t'.s) && t'.s.uReset == t.s.uReset && t'.trained == t.trained && t'.log == t.log
  {
    CountSized(t, m, actual);
  }

  // ---------------------------------------------------------------- many resolutions

  /** What the branch unit asks of the predictor, in any order. */
  datatype Op = Ask(pc: nat, hit: bool) | Learn(pc: nat, taken: bool, id: nat) | Fix(actual: bool, id: nat)

  function Apply(s: State, o: Op): (s': State)
    requires TablesOk(s)
    ensures TablesOk(s') && s'.cfg == s.cfg
  {
    match o
    case Ask(pc, hit) => PredictTablesOk(s, pc, hit); Predict(s, pc, hit).0
    case Learn(pc, taken, id) => UpdateTablesOk(s, pc, taken, id); Update(s, pc, taken, id)
    case Fix(actual, id) => MispredTablesOk(s, actual, id); OnMispred(s, actual, id)
  }

  function After(s: State, os: seq<Op>): (s': State)
    requires TablesOk(s)
    ensures TablesOk(s') && s'.cfg == s.cfg
  {
    if os == [] then s else Apply(After(s, os[..|os| - 1]), os[|os| - 1])
  }

  /** A training on the entry k of component p. */
  predicate LearnsEntry(s: State, o: Op, p: nat, k: nat) {
    o.Learn? && Trains(s, o.id) && ProvidedBy(s, o.id, p, k)
  }

  /** A training on the base counter b. */
  predicate LearnsBase(s: State, o: Op, b: nat) {
    o.Learn? && Trains(s, o.id) && BaseIndex(s.cfg, o.pc) == b
  }

  /** A wrong prediction that could give the entry to another branch. */
  predicate MayReplace(s: State, o: Op, p: nat, k: nat) {
    && o.Learn? && Trains(s, o.id)
    && var snap := s.ring[o.id % 512];
       snap.taken != o.taken && Above(snap, p) && snap.fidx[p] == k
  }

  /** How often the entry was trained; the base counter likewise. */
  function EntryTrainings(s: State, os: seq<Op>, p: nat, k: nat): nat
    requires TablesOk(s)
  {
    if os == [] then 0
    else EntryTrainings(s, os[..|os| - 1], p, k) + if LearnsEntry(After(s, os[..|os| - 1]), os[|os| - 1], p, k) then 1 else 0
  }

  function BaseTrainings(s: State, os: seq<Op>, b: nat): nat
    requires TablesOk(s)
  {
    if os == [] then 0
    else BaseTrainings(s, os[..|os| - 1], b) + if LearnsBase(After(s, os[..|os| - 1]), os[|os| - 1], b) then 1 else 0
  }

  /** Every training of the entry was in one direction, and the entry stayed with its branches. */
  predicate OneWay(s: State, os: seq<Op>, p: nat, k: nat, taken: bool)
    requires TablesOk(s)
    decreases |os|
  {
    os == [] ||
    (&& OneWay(s, os[..|os| - 1], p, k, taken)
     && var t, o := After(s, os[..|os| - 1]), os[|os| - 1];
        !MayReplace(t, o, p, k) && (LearnsEntry(t, o, p, k) ==> o.taken == taken))
  }

  predicate BaseOneWay(s: State, os: seq<Op>, b: nat, taken: bool)
    requires TablesOk(s)
    decreases |os|
  {
    os == [] ||
    (&& BaseOneWay(s, os[..|os| - 1], b, taken)
     && var t, o := After(s, os[..|os| - 1]), os[|os| - 1];
        LearnsBase(t, o, b) ==> o.taken == taken)
  }

  /** One operation against one counter of a component. */
  lemma EntryStep(s: State, o: Op, p: nat, k: nat)
    requires TablesOk(s) && p < |s.comps| && k < |s.comps[p]| && !MayReplace(s, o, p, k)
    ensures var s' := Apply(s, o);
      && |s'.comps| == |s.comps| && |s'.comps[p]| == |s.comps[p]| && -4 <= s.comps[p][k].ctr <= 3
      && s'.comps[p][k].ctr == (if LearnsEntry(s, o, p, k) then Toward(s.comps[p][k].ctr, 1, o.taken, -4, 3) else s.comps[p][k].ctr)
  {
    hide Lookup, Update, Pow2, GhrLen, ProvidedBy, MayReplace, Toward;
    assert EntryOk(s.comps[p][k]);
    if LearnsEntry(s, o, p, k) {
      ProviderMoves(s, o.pc, o.taken, o.id, p, k);
    } else if o.Learn? {
      OthersStay(s, o.pc, o.taken, o.id, p, k);
    }
  }

  lemma OthersStay(s: State, pc: nat, taken: bool, id: nat, p: nat, k: nat)
    requires TablesOk(s) && p < |s.comps| && k < |s.comps[p]|
    requires !MayReplace(s, Learn(pc, taken, id), p, k) && !LearnsEntry(s, Learn(pc, taken, id), p, k)
    ensures var s' := Update(s, pc, taken, id);
      |s'.comps| == |s.comps| && |s'.comps[p]| == |s.comps[p]| && s'.comps[p][k].ctr == s.comps[p][k].ctr
  {
    hide BaseIndex, Pow2, GhrLen, Allocate, Train;
    if Trains(s, id) {
      AllocateKeeps(TrainProvider(s.comps, s.ring[id % 512], taken), s.ring[id % 512], taken, p, k);
    }
  }

  lemma AllocateKeeps(comps: seq<seq<Entry>>, snap: Snap, taken: bool, p: nat, k: nat)
    requires Fits(comps, snap) && p < |comps| && k < |comps[p]|
    requires !(snap.taken != taken && Above(snap, p) && snap.fidx[p] == k)
    ensures Allocate(comps, snap, taken)[p][k].ctr == comps[p][k].ctr
  {
  }

  lemma BaseStep(s: State, o: Op, b: nat)
    requires TablesOk(s) && b < |s.base|
    ensures var s' := Apply(s, o);
      && |s'.base| == |s.base| && s.base[b] <= 3
      && s'.base[b] == (if LearnsBase(s, o, b) then Toward(s.base[b], 1, o.taken, 0, 3) else s.base[b])
  {
    hide Lookup, BaseIndex, TrainTables, Pow2, GhrLen, Toward;
    if o.Learn? && Trains(s, o.id) { BaseMoves(s, o.pc, o.taken, o.id); }
  }

  lemma TowardThen(from: int, n: nat, taken: bool, low: int, high: int)
    requires low <= from <= high
    ensures Toward(Toward(from, n, taken, low, high), 1, taken, low, high) == Toward(from, n + 1, taken, low, high)
    ensures Toward(from, 0, taken, low, high) == from
  {
  }

  /** n trainings in one direction move a counter by n steps, or to its limit, whatever predictions and repairs come between. */
  lemma {:induction false} EntryMovesBy(s: State, os: seq<Op>, p: nat, k: nat, taken: bool)
    requires TablesOk(s) && p < |s.comps| && k < |s.comps[p]| && OneWay(s, os, p, k, taken)
    ensures var s' := After(s, os);
      && |s'.comps| == |s.comps| && |s'.comps[p]| == |s.comps[p]| && -4 <= s.comps[p][k].ctr <= 3
      && s'.comps[p][k].ctr == Toward(s.comps[p][k].ctr, EntryTrainings(s, os, p, k), taken, -4, 3)
  {
    hide Apply, LearnsEntry, MayReplace, Toward, Sized;
    assert EntryOk(s.comps[p][k]);
    var c := s.comps[p][k].ctr;
    TowardThen(c, 0, taken, -4, 3);
    if os != [] {
      var before := os[..|os| - 1];
      EntryMovesBy(s, before, p, k, taken);
      EntryStep(After(s, before), os[|os| - 1], p, k);
      TowardThen(c, EntryTrainings(s, before, p, k), taken, -4, 3);
    }
  }

  lemma {:induction false} BaseMovesBy(s: State, os: seq<Op>, b: nat, taken: bool)
    requires TablesOk(s) && b < |s.base| && BaseOneWay(s, os, b, taken)
    ensures var s' := After(s, os);
      && |s'.base| == |s.base| && s.base[b] <= 3
      && s'.base[b] == Toward(s.base[b], BaseTrainings(s, os, b), taken, 0, 3)
  {
    hide Apply, LearnsBase, Toward, Sized;
    TowardThen(s.base[b], 0, taken, 0, 3);
    if os != [] {
      var before := os[..|os| - 1];
      BaseMovesBy(s, before, b, taken);
      BaseStep(After(s, before), os[|os| - 1], b);
      TowardThen(s.base[b], BaseTrainings(s, before, b), taken, 0, 3);
    }
  }

  // ---------------------------------------------------------------- what a lookup then says

  /** The entry k of component p decides a lookup of pc. */
  predicate Provides(s: State, pc: nat, p: nat, k: nat)
    requires Sized(s)
  {
    Lookup(s, pc).provider == Some(p) && p < |s.comps| && CompIdx(s.cfg, pc, s.ghr, p) == k
  }

  /** The thresholds: a base counter says taken from 2 on; a component's from 0 on, unless it is -1 or 0 and of no use. */
  lemma SaysTaken(s: State, pc: nat)
    requires Sized(s)
    ensures var r := Lookup(s, pc);
      && r.bimodalTaken == (s.base[BaseIndex(s.cfg, pc)] >= 2)
      && (r.provider.None? ==> r.taken == (s.base[BaseIndex(s.cfg, pc)] >= 2))
    ensures var r := Lookup(s, pc);
      r.provider.Some? ==>
        && r.provider.value < |s.comps|
        && CompIdx(s.cfg, pc, s.ghr, r.provider.value) < |s.comps[r.provider.value]|
        && var e := s.comps[r.provider.value][CompIdx(s.cfg, pc, s.ghr, r.provider.value)];
           && r.providerCtr == e.ctr
           && r.taken == (if (e.ctr == 0 || e.ctr == -1) && e.u == 0 then r.altTaken else e.ctr >= 0)
  {
    hide Pow2, BaseIndex, CompIdx, CompTag, GhrLen;
  }

  /** Seven trainings in one direction saturate the counter of an entry, and from then on it predicts that direction where it decides. */
  lemma SevenTrain(s: State, os: seq<Op>, p: nat, k: nat, taken: bool, pc: nat)
    requires TablesOk(s) && p < |s.comps| && k < |s.comps[p]| && OneWay(s, os, p, k, taken) && EntryTrainings(s, os, p, k) >= 7
    ensures var s' := After(s, os);
      && p < |s'.comps| && k < |s'.comps[p]|
      && s'.comps[p][k].ctr == (if taken then 3 else -4)
      && (Provides(s', pc, p, k) ==> Lookup(s', pc).taken == taken)
  {
    hide After, OneWay, EntryTrainings, Lookup, CompIdx, Pow2, GhrLen;
    EntryMovesBy(s, os, p, k, taken);
    SaysTaken(After(s, os), pc);
  }

  /** Three trainings in one direction saturate a base counter, and from then on the base predicts that direction. */
  lemma ThreeTrain(s: State, os: seq<Op>, b: nat, taken: bool, pc: nat)
    requires TablesOk(s) && b < |s.base| && BaseOneWay(s, os, b, taken) && BaseTrainings(s, os, b) >= 3
    ensures var s' := After(s, os);
      && b < |s'.base| && s'.base[b] == (if taken then 3 else 0)
      && (BaseIndex(s'.cfg, pc) == b ==>
            Lookup(s', pc).bimodalTaken == taken && (Lookup(s', pc).provider.None? ==> Lookup(s', pc).taken == taken))
  {
    hide After, BaseOneWay, BaseTrainings, Lookup, BaseIndex, Pow2, GhrLen;
    BaseMovesBy(s, os, b, taken);
    SaysTaken(After(s, os), pc);
  }

  /** A new predictor says not taken everywhere; its base counters are one step below taken and no entry hits. */
  lemma StartsNotTaken(c: Config, pc: nat)
    requires GoodConfig(c)
    ensures var s := Tage.Init(c);
      && Sized(s) && s.base[BaseIndex(c, pc)] == 1
      && Lookup(s, pc).provider.None? && !Lookup(s, pc).taken
  {
    hide Pow2, BaseIndex, CompIdx, CompTag;
    StartSized(c);
    SaysTaken(Tage.Init(c), pc);
    var hit := HitVector(Tage.Init(c), pc);
    assert forall i :: 0 <= i < |hit| ==> !hit[i];
  }

  lemma StartSized(c: Config)
    requires GoodConfig(c)
    ensures Sized(Tage.Init(c))
  {
    hide Pow2;
  }

  /** With growing history lengths the register holds every bit that a component looks at, up to 64. */
  lemma RegisterReaches(c: Config, i: nat)
    requires GoodConfig(c) && i < |c.hist| && forall a, b :: 0 <= a < b < |c.hist| ==> c.hist[a] <= c.hist[b]
    ensures |Tage.Init(c).ghr| <= 64 && (c.hist[i] <= |Tage.Init(c).ghr| || |Tage.Init(c).ghr| == 64)
    ensures exists j :: 0 <= j < |c.hist| && |Tage.Init(c).ghr| == if c.hist[j] < 64 then c.hist[j] else 64
  {
    assert c.hist[i] <= c.hist[|c.hist| - 1];
  }
}

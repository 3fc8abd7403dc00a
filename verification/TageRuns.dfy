/** What holds of the TAGE predictor over every run of predictions and resolutions. */
module TageRuns {
  import opened Common
  import opened Tage
  import H = History

  /** A prediction as it was made. */
  datatype Made = Made(pc: nat, hit: bool, snap: Snap, overrode: bool)

  /**
   The predictor, every prediction so far, which of them have trained the tables, and how often a counted
   branch that missed the BTB had TAGE and the base disagree, with TAGE right or wrong.
   */
  datatype Track = Track(s: State, log: seq<Made>, trained: seq<nat>, missHelpful: nat, missHarmful: nat)

  /** BranchUnit::update: statistics, then training if the branch hit the BTB or was taken, then the repair. */
  datatype Event = Ask(pc: nat, hit: bool) | Resolve(m: nat, actual: bool, trains: bool, mispred: bool)

  /** A branch is resolved before 2^32 more predictions have been made. */
  predicate Possible(t: Track, e: Event) {
    Sized(t.s) && (e.Resolve? ==> e.m < |t.log| && |t.log| - e.m < H.WRAP)
  }

  function AskStep(t: Track, pc: nat, hit: bool): Track
    requires Sized(t.s)
  {
    var (s, p) := Predict(t.s, pc, hit);
    t.(s := s, log := t.log + [Made(pc, hit, Lookup(t.s, pc), p.overrode)])
  }

  function IdOf(m: nat): nat {
    m % H.WRAP
  }

  function CountStep(t: Track, m: nat, actual: bool): Track
    requires Sized(t.s) && m < |t.log|
  {
    var id := IdOf(m);
    var snap := t.s.ring[id % H.RING];
    var missed := Trains(t.s, id) && !t.log[m].hit && snap.taken != snap.bimodalTaken;
    t.(s := OnResolved(t.s, actual, t.log[m].overrode, id),
       missHelpful := t.missHelpful + (if missed && snap.taken == actual then 1 else 0),
       missHarmful := t.missHarmful + (if missed && snap.taken != actual then 1 else 0))
  }

  function TrainStep(t: Track, m: nat, actual: bool): Track
    requires Sized(t.s) && m < |t.log|
  {
    t.(s := Update(t.s, t.log[m].pc, actual, IdOf(m)), trained := if Trains(t.s, IdOf(m)) then t.trained + [m] else t.trained)
  }

  function Step(t: Track, e: Event): Track
    requires Possible(t, e)
  {
    match e
    case Ask(pc, hit) => AskStep(t, pc, hit)
    case Resolve(m, actual, trains, mispred) =>
      CountSized(t, m, actual);
      var t1 := CountStep(t, m, actual);
      var t2 := if trains then TrainStep(t1, m, actual) else t1;
      if mispred then t2.(s := OnMispred(t2.s, actual, IdOf(m))) else t2
  }

  lemma CountSized(t: Track, m: nat, actual: bool)
    requires Sized(t.s) && m < |t.log|
    ensures Sized(CountStep(t, m, actual).s) && CountStep(t, m, actual).log == t.log
  {
    hide Pow2, GoodConfig;
  }

  function Run(c: Config, es: seq<Event>): Option<Track>
    requires GoodConfig(c)
  {
    if es == [] then Some(Track(Tage.Init(c), [], [], 0, 0))
    else
      match Run(c, es[..|es| - 1])
      case None => None
      case Some(t) => if Possible(t, es[|es| - 1]) then Some(Step(t, es[|es| - 1])) else None
  }

  // ---------------------------------------------------------------- the ring

  predicate MadeOk(c: Config, p: Made)
    requires GoodConfig(c)
  {
    && p.snap.valid && SnapOk(c, p.snap) && (p.overrode <==> p.hit && p.snap.taken != p.snap.bimodalTaken)
    && p.snap.fidx == Indices(c, p.pc, p.snap.ghr) && p.snap.ftag == Tags(c, p.pc, p.snap.ghr)
  }

  /** The ring against the unbounded log: a slot holds its prediction, still valid if it has not trained. */
  ghost predicate RingOk(t: Track) {
    && GoodConfig(t.s.cfg)
    && t.s.wr == |t.log| % H.WRAP
    && (forall m :: 0 <= m < |t.log| ==> MadeOk(t.s.cfg, t.log[m]))
    && (forall m :: 0 <= m < |t.log| && |t.log| - m <= H.RING ==> t.s.ring[m % H.RING] == t.log[m].snap.(valid := m !in t.trained))
    && (forall i :: 0 <= i < |t.trained| ==> t.trained[i] < |t.log|)
    && (forall i, j :: 0 <= i < j < |t.trained| ==> t.trained[i] != t.trained[j])
  }

  lemma AskMade(t: Track, pc: nat, hit: bool)
    requires Sized(t.s)
    ensures var t' := AskStep(t, pc, hit); MadeOk(t.s.cfg, t'.log[|t.log|]) && t'.s.cfg == t.s.cfg
  {
    hide Pow2, Lookup, SnapOk, GhrLen;
    LookupValid(t.s, pc);
  }

  /** The slot written is the newest one's; the slots of the 511 predictions before it are others. */
  lemma AskSlot(t: Track, pc: nat, hit: bool, m: nat)
    requires RingOk(t) && Sized(t.s) && m <= |t.log| && |t.log| - m < H.RING
    ensures var t' := AskStep(t, pc, hit); t'.s.ring[m % H.RING] == t'.log[m].snap.(valid := m !in t.trained)
  {
    hide Pow2, Lookup, SnapOk, GhrLen, Sized, MadeOk, GoodConfig;
    var n := |t.log|;
    H.SlotOf(n);
    LookupValid(t.s, pc);
    if m < n { H.DistinctSlots(m, n); }
  }

  lemma NextId(n: nat)
    ensures (n % H.WRAP + 1) % H.WRAP == (n + 1) % H.WRAP
  {
  }

  lemma AskRing(t: Track, pc: nat, hit: bool)
    requires RingOk(t) && Sized(t.s)
    ensures RingOk(AskStep(t, pc, hit))
  {
    hide Pow2, Lookup, SnapOk, GhrLen, Sized, MadeOk, GoodConfig;
    AskMade(t, pc, hit);
    NextId(|t.log|);
    var t' := AskStep(t, pc, hit);
    forall m | 0 <= m < |t'.log| && |t'.log| - m <= H.RING
      ensures t'.s.ring[m % H.RING] == t'.log[m].snap.(valid := m !in t'.trained)
    {
      AskSlot(t, pc, hit, m);
    }
  }

  lemma LookupValid(s: State, pc: nat)
    requires Sized(s)
    ensures var r := Lookup(s, pc);
      r.valid && r.ghr == s.ghr && r.fidx == Indices(s.cfg, pc, s.ghr) && r.ftag == Tags(s.cfg, pc, s.ghr)
  {
    hide Pow2, Sized, Indices, Tags;
  }

  /** A resolution sees the snapshot of its own prediction exactly when fewer than 512 predictions came since. */
  lemma SeesItsOwn(t: Track, m: nat)
    requires RingOk(t) && m < |t.log| && |t.log| - m < H.WRAP
    ensures H.Fresh(t.s.wr, IdOf(m)) <==> |t.log| - m < H.RING
    ensures |t.log| - m < H.RING ==> t.s.ring[IdOf(m) % H.RING] == t.log[m].snap.(valid := m !in t.trained)
    ensures Trains(t.s, IdOf(m)) <==> |t.log| - m < H.RING && m !in t.trained
  {
    H.ModDiff(|t.log|, m);
    H.SlotOf(m);
  }

  lemma TrainRing(t: Track, m: nat, actual: bool)
    requires RingOk(t) && Sized(t.s) && m < |t.log| && |t.log| - m < H.WRAP
    ensures RingOk(TrainStep(t, m, actual))
  {
    hide Pow2, SnapOk, GhrLen, BaseIndex, TrainTables, CompsOk, Fits, Saturate;
    SeesItsOwn(t, m);
    if Trains(t.s, IdOf(m)) {
      var t' := TrainStep(t, m, actual);
      H.SlotOf(m);
      forall k | 0 <= k < |t.log| && |t.log| - k <= H.RING
        ensures t'.s.ring[k % H.RING] == t.log[k].snap.(valid := k !in t'.trained)
      {
        if k < m { H.DistinctSlots(k, m); } else if m < k { H.DistinctSlots(m, k); }
      }
    }
  }

  // ---------------------------------------------------------------- counters in range

  lemma TrainEntryOk(e: Entry, snap: Snap, taken: bool)
    requires EntryOk(e)
    ensures EntryOk(Train(e, snap, taken))
  {
  }

  lemma TrainTablesOk(comps: seq<seq<Entry>>, snap: Snap, taken: bool, halve: bool)
    requires CompsOk(comps) && Fits(comps, snap)
    ensures CompsOk(TrainTables(comps, snap, taken, halve))
  {
    if snap.provider.Some? { TrainEntryOk(comps[snap.provider.value][snap.fidx[snap.provider.value]], snap, taken); }
    hide Train;
    var c1 := TrainProvider(comps, snap, taken);
    assert CompsOk(c1);
    AllocateOk(c1, snap, taken);
    HalveOk(Allocate(c1, snap, taken));
  }

  lemma AllocateOk(comps: seq<seq<Entry>>, snap: Snap, taken: bool)
    requires CompsOk(comps) && Fits(comps, snap)
    ensures CompsOk(Allocate(comps, snap, taken))
  {
  }

  lemma HalveOk(comps: seq<seq<Entry>>)
    requires CompsOk(comps)
    ensures CompsOk(Halve(comps))
  {
  }

  lemma UpdateTablesOk(s: State, pc: nat, taken: bool, id: nat)
    requires TablesOk(s)
    ensures TablesOk(Update(s, pc, taken, id))
  {
    hide Pow2, GhrLen, BaseIndex, TrainTables, CompsOk;
    if Trains(s, id) {
      TrainTablesOk(s.comps, s.ring[id % H.RING], taken, s.uReset + 1 >= U_RESET_PERIOD);
    }
  }

  lemma PredictTablesOk(s: State, pc: nat, hit: bool)
    requires TablesOk(s)
    ensures TablesOk(Predict(s, pc, hit).0)
  {
    hide Pow2, GhrLen, Lookup, CompsOk, SnapOk;
    LookupValid(s, pc);
  }

  lemma MispredTablesOk(s: State, actual: bool, id: nat)
    requires TablesOk(s)
    ensures TablesOk(OnMispred(s, actual, id))
  {
    hide Pow2, GhrLen, CompsOk, SnapOk;
  }

  // ---------------------------------------------------------------- the accuracy counters

  function Sum(s: seq<nat>): nat {
    if s == [] then 0 else Sum(s[..|s| - 1]) + s[|s| - 1]
  }

  lemma {:induction false} SumUpdate(s: seq<nat>, i: nat, v: nat)
    requires i < |s|
    ensures Sum(s[i := v]) == Sum(s) - s[i] + v
  {
    var n := |s| - 1;
    if i < n {
      assert s[i := v][..n] == s[..n][i := v];
      SumUpdate(s[..n], i, v);
    } else {
      assert s[i := v][..n] == s[..n];
    }
  }

  /** Every counted branch is counted in each breakdown once. */
  predicate StatsOk(st: Stats, missHelpful: int, missHarmful: int) {
    && st.tageCorrect + st.tageMispred == st.bimodalCorrect + st.bimodalMispred == st.baseUsed + Sum(st.compUsed)
    && st.baseUsed == st.baseCorrect + st.baseMispred
    && st.overrides == st.helpful + st.harmful
    && st.tageCorrect - st.bimodalCorrect == st.helpful - st.harmful + missHelpful - missHarmful
    && |st.compUsed| == |st.compCorrect| == |st.compMispred|
    && forall i :: 0 <= i < |st.compUsed| ==> st.compUsed[i] == st.compCorrect[i] + st.compMispred[i]
  }

  lemma CountOk(st: Stats, snap: Snap, actual: bool, hit: bool, missHelpful: int, missHarmful: int)
    requires StatsOk(st, missHelpful, missHarmful) && (snap.provider.Some? ==> snap.provider.value < |st.compUsed|)
    ensures var differ := snap.taken != snap.bimodalTaken;
      StatsOk(Count(st, snap, actual, hit && differ),
              missHelpful + (if !hit && differ && snap.taken == actual then 1 else 0),
              missHarmful + (if !hit && differ && snap.taken != actual then 1 else 0))
  {
    if snap.provider.Some? { SumUpdate(st.compUsed, snap.provider.value, st.compUsed[snap.provider.value] + 1); }
    hide Sum;
  }

  ghost predicate TrackInv(t: Track) {
    TablesOk(t.s) && RingOk(t) && StatsOk(t.s.stats, t.missHelpful, t.missHarmful)
  }

  lemma CountStepInv(t: Track, m: nat, actual: bool)
    requires TrackInv(t) && m < |t.log| && |t.log| - m < H.WRAP
    ensures TrackInv(CountStep(t, m, actual))
  {
    hide Pow2, GhrLen, CompsOk, StatsOk, Count;
    SeesItsOwn(t, m);
    CountSized(t, m, actual);
    if Trains(t.s, IdOf(m)) {
      CountOk(t.s.stats, t.s.ring[IdOf(m) % H.RING], actual, t.log[m].hit, t.missHelpful, t.missHarmful);
    }
  }

  lemma TrainStepInv(t: Track, m: nat, actual: bool)
    requires TrackInv(t) && m < |t.log| && |t.log| - m < H.WRAP
    ensures TrackInv(TrainStep(t, m, actual)) && TrainStep(t, m, actual).log == t.log
  {
    hide TablesOk, RingOk, StatsOk, Update;
    assert Sized(t.s) by { SizedOf(t.s); }
    TrainRing(t, m, actual);
    UpdateTablesOk(t.s, t.log[m].pc, actual, IdOf(m));
    UpdateStats(t.s, t.log[m].pc, actual, IdOf(m));
  }

  lemma SizedOf(s: State)
    requires TablesOk(s)
    ensures Sized(s)
  {
  }

  lemma UpdateStats(s: State, pc: nat, taken: bool, id: nat)
    requires Sized(s)
    ensures Update(s, pc, taken, id).stats == s.stats
  {
    hide Pow2, GhrLen, BaseIndex, TrainTables;
  }

  lemma MispredInv(t: Track, m: nat, actual: bool)
    requires TrackInv(t)
    ensures TrackInv(t.(s := OnMispred(t.s, actual, IdOf(m))))
  {
    hide TablesOk, StatsOk, MadeOk;
    MispredTablesOk(t.s, actual, IdOf(m));
  }

  lemma AskStepInv(t: Track, pc: nat, hit: bool)
    requires TrackInv(t)
    ensures Sized(t.s) && TrackInv(AskStep(t, pc, hit))
  {
    SizedOf(t.s);
    hide TablesOk, RingOk, StatsOk, Lookup;
    AskRing(t, pc, hit);
    PredictTablesOk(t.s, pc, hit);
  }

  lemma StepInv(t: Track, e: Event)
    requires TrackInv(t) && Possible(t, e)
    ensures TrackInv(Step(t, e))
  {
    hide TrackInv, AskStep, CountStep, TrainStep, OnMispred, Sized;
    match e {
      case Ask(pc, hit) => AskStepInv(t, pc, hit);
      case Resolve(m, actual, trains, mispred) =>
        CountStepInv(t, m, actual);
        CountSized(t, m, actual);
        var t1 := CountStep(t, m, actual);
        if trains { TrainStepInv(t1, m, actual); }
        var t2 := if trains then TrainStep(t1, m, actual) else t1;
        MispredInv(t2, m, actual);
    }
  }

  lemma {:induction false} SumZero(n: nat)
    ensures Sum(seq(n, _ => 0)) == 0
  {
    if n > 0 {
      SumZero(n - 1);
      assert seq(n, _ => 0)[..n - 1] == seq(n - 1, _ => 0);
    }
  }

  lemma {:induction false} RunInv(c: Config, es: seq<Event>)
    requires GoodConfig(c)
    ensures Run(c, es).Some? ==> TrackInv(Run(c, es).value)
  {
    hide Pow2, Step, Possible;
    if es == [] {
      SumZero(|c.hist|);
    } else {
      RunInv(c, es[..|es| - 1]);
      var t := Run(c, es[..|es| - 1]);
      if t.Some? && Possible(t.value, es[|es| - 1]) { StepInv(t.value, es[|es| - 1]); }
    }
  }

  ghost predicate Reachable(t: Track) {
    exists c, es :: GoodConfig(c) && Run(c, es) == Some(t)
  }

  lemma ReachableInv(t: Track)
    requires Reachable(t)
    ensures TrackInv(t)
  {
    hide TrackInv, GoodConfig, Run;
    var c, es :| GoodConfig(c) && Run(c, es) == Some(t);
    RunInv(c, es);
  }

  // ---------------------------------------------------------------- main results

  /** In every reachable state all counters are in range and all tables and snapshots in shape. */
  lemma CountersInRange(t: Track)
    requires Reachable(t)
    ensures Sized(t.s)
    ensures forall i, k :: 0 <= i < |t.s.comps| && 0 <= k < |t.s.comps[i]| ==>
      CTR_MIN <= t.s.comps[i][k].ctr <= CTR_MAX && t.s.comps[i][k].u <= U_MAX
    ensures forall k :: 0 <= k < |t.s.base| ==> t.s.base[k] <= 3
  {
    hide Pow2, RingOk, StatsOk;
    ReachableInv(t);
  }

  /** The statistics, the training and the repair of a branch see the snapshot that its own prediction stored, or skip it. */
  lemma OwnSnapshot(t: Track, m: nat)
    requires Reachable(t) && m < |t.log| && |t.log| - m < H.WRAP
    ensures H.Fresh(t.s.wr, IdOf(m)) <==> |t.log| - m < H.RING
    ensures |t.log| - m < H.RING ==> t.s.ring[IdOf(m) % H.RING] == t.log[m].snap.(valid := m !in t.trained)
  {
    hide TablesOk, RingOk, StatsOk;
    ReachableInv(t);
    SeesItsOwn(t, m);
  }

  /** A prediction trains the tables at most once, and exactly if it is recent and has not trained yet. */
  lemma TrainsAtMostOnce(t: Track, m: nat, pc: nat, actual: bool)
    requires Reachable(t) && m < |t.log| && |t.log| - m < H.WRAP
    ensures Sized(t.s)
    ensures multiset(t.trained)[m] <= 1
    ensures |t.log| - m < H.RING && m !in t.trained <==> Trains(t.s, IdOf(m))
    ensures m in t.trained || |t.log| - m >= H.RING ==> Update(t.s, pc, actual, IdOf(m)) == t.s
  {
    ReachableInv(t);
    SeesItsOwn(t, m);
    OnceIn(t.trained, m);
    SizedOf(t.s);
    hide Pow2, TablesOk, StatsOk, SnapOk;
  }

  lemma {:induction false} OnceIn(s: seq<nat>, m: nat)
    requires forall i, j :: 0 <= i < j < |s| ==> s[i] != s[j]
    ensures multiset(s)[m] <= 1
  {
    if s != [] {
      var n := |s| - 1;
      OnceIn(s[..n], m);
      assert s == s[..n] + [s[n]];
      if s[n] == m { assert m !in s[..n]; }
    }
  }

  /** Every counted branch appears once in each breakdown of the accuracy. */
  lemma Accounting(t: Track)
    requires Reachable(t)
    ensures var st := t.s.stats;
      && st.tageCorrect + st.tageMispred == st.bimodalCorrect + st.bimodalMispred == st.baseUsed + Sum(st.compUsed)
      && st.overrides == st.helpful + st.harmful
      && st.baseUsed == st.baseCorrect + st.baseMispred
  {
    hide TablesOk, RingOk, Sum;
    ReachableInv(t);
  }

  /** TAGE gains over its base exactly what the overrides gained, plus what branches without a BTB entry gained. */
  lemma GainIsOverrides(t: Track)
    requires Reachable(t)
    ensures var st := t.s.stats;
      st.tageCorrect - st.bimodalCorrect == (st.helpful - st.harmful) + (t.missHelpful - t.missHarmful)
  {
    hide TablesOk, RingOk, Sum;
    ReachableInv(t);
  }

  /** Every branch that the run resolves had hit the BTB when it was predicted. */
  predicate ResolvedHit(es: seq<Event>, log: seq<Made>) {
    forall i :: 0 <= i < |es| && es[i].Resolve? ==> es[i].m < |log| && log[es[i].m].hit
  }

  lemma StepNoMisses(t: Track, e: Event)
    requires Possible(t, e) && (e.Resolve? ==> t.log[e.m].hit)
    ensures Step(t, e).missHelpful == t.missHelpful && Step(t, e).missHarmful == t.missHarmful && t.log <= Step(t, e).log
  {
    hide Sized, OnResolved, Update, OnMispred, Predict, Lookup, Trains;
  }

  lemma ResolveInLog(t: Track, e: Event)
    requires Possible(t, e)
    ensures e.Resolve? ==> e.m < |t.log|
  {
    hide Sized;
  }

  lemma StepLog(t: Track, e: Event)
    requires Possible(t, e)
    ensures t.log <= Step(t, e).log
  {
    hide Sized, OnResolved, Update, OnMispred, Predict, Lookup, Trains;
  }

  lemma {:induction false} RunNoMisses(c: Config, es: seq<Event>, log: seq<Made>)
    requires GoodConfig(c) && Run(c, es).Some? && Run(c, es).value.log <= log && ResolvedHit(es, log)
    ensures Run(c, es).value.missHelpful == Run(c, es).value.missHarmful == 0
  {
    hide Step, Possible, GoodConfig;
    if es != [] {
      var n := |es| - 1;
      var t := Run(c, es[..n]).value;
      assert ResolvedHit(es[..n], log);
      StepLog(t, es[n]);
      RunNoMisses(c, es[..n], log);
      ResolveInLog(t, es[n]);
      StepNoMisses(t, es[n]);
    }
  }

  /** While every resolved branch hit the BTB, the second part stays zero, whatever the other predictions did. */
  lemma GainWithAllHits(c: Config, es: seq<Event>)
    requires GoodConfig(c) && Run(c, es).Some? && ResolvedHit(es, Run(c, es).value.log)
    ensures var st := Run(c, es).value.s.stats;
      st.tageCorrect - st.bimodalCorrect == st.helpful - st.harmful
  {
    hide Run, GoodConfig;
    RunNoMisses(c, es, Run(c, es).value.log);
    assert Reachable(Run(c, es).value);
    GainIsOverrides(Run(c, es).value);
  }

  /** The provider is the longest component that hits and decides, unless it is new: then the next longest or the base does. */
  lemma ProviderIsLongest(s: State, pc: nat)
    requires TablesOk(s)
    ensures var r := Lookup(s, pc);
      && (r.provider.None? <==> forall i :: 0 <= i < |s.comps| ==> !Hits(s, pc, i))
      && (r.provider.Some? ==> Hits(s, pc, r.provider.value) && forall i :: r.provider.value < i < |s.comps| ==> !Hits(s, pc, i))
      && (r.provider.None? ==> r.taken == r.bimodalTaken)
      && (r.provider.Some? && !Weak(EntryAt(s, pc, r.provider.value)) ==> r.taken == (EntryAt(s, pc, r.provider.value).ctr >= 0))
      && (r.provider.Some? && Weak(EntryAt(s, pc, r.provider.value)) ==> r.taken == r.altTaken)
      && (r.provider.Some? ==>
            if exists a :: 0 <= a < r.provider.value && Hits(s, pc, a)
            then exists a :: 0 <= a < r.provider.value && Hits(s, pc, a)
                   && (forall i :: a < i < r.provider.value ==> !Hits(s, pc, i)) && r.altTaken == (EntryAt(s, pc, a).ctr >= 0)
            else r.altTaken == r.bimodalTaken)
  {
    hide Pow2, Hits, EntryAt, CompsOk, BaseIndex, Indices, Tags;
    var hit := HitVector(s, pc);
    var p := LastHit(hit, |hit|);
    assert forall i :: 0 <= i < |hit| ==> hit[i] == Hits(s, pc, i);
    if p.Some? {
      var alt := LastHit(hit, p.value);
      if alt.Some? { assert Hits(s, pc, alt.value); }
    }
  }

  /** The tables after the provider of a snapshot has been trained, where allocation looks for a free entry. */
  function Candidate(t: Track, m: nat, taken: bool): Option<nat>
    requires m < |t.log| && Fits(t.s.comps, t.log[m].snap)
  {
    var snap := t.log[m].snap;
    FirstFree(TrainProvider(t.s.comps, snap, taken), snap, if snap.provider.Some? then snap.provider.value + 1 else 0)
  }

  lemma SnapFits(t: Track, m: nat)
    requires Sized(t.s) && RingOk(t) && m < |t.log|
    ensures Fits(t.s.comps, t.log[m].snap)
  {
    hide Pow2, GhrLen, Indices, Tags;
    assert MadeOk(t.s.cfg, t.log[m]);
  }

  /** A wrong prediction that finds a free entry leaves one that the same branch with the same history hits next time. */
  lemma AllocatedIsFound(t: Track, m: nat, taken: bool)
    requires Reachable(t) && m < |t.log| && |t.log| - m < H.RING && m !in t.trained && t.log[m].snap.taken != taken
    ensures Sized(t.s) && Fits(t.s.comps, t.log[m].snap)
    ensures Candidate(t, m, taken).Some? ==>
      var a := Candidate(t, m, taken).value;
      var s1 := Update(t.s, t.log[m].pc, taken, IdOf(m)).(ghr := t.log[m].snap.ghr);
      && Sized(s1) && a < |s1.comps| && Hits(s1, t.log[m].pc, a) && Weak(EntryAt(s1, t.log[m].pc, a))
      && (EntryAt(s1, t.log[m].pc, a).ctr >= 0) == taken
      && Lookup(s1, t.log[m].pc).provider.Some? && Lookup(s1, t.log[m].pc).provider.value >= a
  {
    hide TablesOk, RingOk, StatsOk, Fits, Candidate, Sized, Update;
    ReachableInv(t);
    SizedOf(t.s);
    SeesItsOwn(t, m);
    SnapFits(t, m);
    SnapOfMade(t, m);
    if Candidate(t, m, taken).Some? { FoundAfter(t, m, taken); }
  }

  lemma SnapOfMade(t: Track, m: nat)
    requires RingOk(t) && m < |t.log|
    ensures GoodConfig(t.s.cfg) && t.log[m].snap.valid
    ensures t.log[m].snap.fidx == Indices(t.s.cfg, t.log[m].pc, t.log[m].snap.ghr)
    ensures t.log[m].snap.ftag == Tags(t.s.cfg, t.log[m].pc, t.log[m].snap.ghr)
  {
    hide Indices, Tags;
    assert MadeOk(t.s.cfg, t.log[m]);
  }

  lemma FoundAfter(t: Track, m: nat, taken: bool)
    requires TablesOk(t.s) && m < |t.log| && Fits(t.s.comps, t.log[m].snap) && Candidate(t, m, taken).Some?
    requires var snap := t.log[m].snap;
      && snap.valid && snap.taken != taken && Trains(t.s, IdOf(m)) && t.s.ring[IdOf(m) % H.RING] == snap
      && snap.fidx == Indices(t.s.cfg, t.log[m].pc, snap.ghr) && snap.ftag == Tags(t.s.cfg, t.log[m].pc, snap.ghr)
    ensures var a := Candidate(t, m, taken).value;
      var s1 := Update(t.s, t.log[m].pc, taken, IdOf(m)).(ghr := t.log[m].snap.ghr);
      && Sized(s1) && a < |s1.comps| && Hits(s1, t.log[m].pc, a) && Weak(EntryAt(s1, t.log[m].pc, a))
      && (EntryAt(s1, t.log[m].pc, a).ctr >= 0) == taken
      && Lookup(s1, t.log[m].pc).provider.Some? && Lookup(s1, t.log[m].pc).provider.value >= a
  {
    hide Pow2, GhrLen, BaseIndex, CompIdx, CompTag, CompsOk, FirstFree, TrainProvider;
    var a := Candidate(t, m, taken).value;
    UpdateTablesOk(t.s, t.log[m].pc, taken, IdOf(m));
    var s1 := Update(t.s, t.log[m].pc, taken, IdOf(m)).(ghr := t.log[m].snap.ghr);
    assert Hits(s1, t.log[m].pc, a);
    assert HitVector(s1, t.log[m].pc)[a];
  }

  // ---------------------------------------------------------------- the history machine

  /** What History keeps of the predictor. */
  function View(s: State): H.Hist {
    H.Hist(H.Mode.Tage, s.ghr, seq(H.RING, k requires 0 <= k < H.RING => s.ring[k].ghr), s.wr)
  }

  /** The predictor moves its history as the History machine does, with the direction that the tables give. */
  lemma RefinesHistory(s: State, pc: nat, hit: bool, actual: bool, id: nat)
    requires Sized(s)
    ensures View(Predict(s, pc, hit).0) == H.Predict(View(s), Predict(s, pc, hit).1.taken, hit).0
    ensures H.Predict(View(s), Predict(s, pc, hit).1.taken, hit).1 == H.Slot(Predict(s, pc, hit).1.id)
    ensures View(OnMispred(s, actual, id)) == H.Repair(View(s), actual, H.Slot(id))
    ensures View(Update(s, pc, actual, id)) == View(s) && View(OnResolved(s, actual, hit, id)) == View(s)
  {
    hide Pow2, GhrLen, BaseIndex, TrainTables, Lookup, Count;
    LookupValid(s, pc);
    assert View(Predict(s, pc, hit).0).ring == H.Predict(View(s), Predict(s, pc, hit).1.taken, hit).0.ring;
    assert View(Update(s, pc, actual, id)).ring == View(s).ring;
    assert View(OnResolved(s, actual, hit, id)).ring == View(s).ring;
  }
}

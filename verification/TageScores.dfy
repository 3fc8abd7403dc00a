/** The accuracy counters of TAGE: each is the number of resolved branches of its kind. */
module TageScores {
  import opened Common
  import opened Tage
  import opened TageRuns
  import H = History

  datatype Kind =
    | TageRight | TageWrong | BaseAloneRight | BaseAloneWrong
    | Override | Helped | Harmed
    | BaseGave | BaseGaveRight | BaseGaveWrong
    | CompGave(i: nat) | CompGaveRight(i: nat) | CompGaveWrong(i: nat)

  /** What a resolved branch counts as: its final direction and the base's against the outcome, who gave the prediction, whether TAGE overrode a BTB hit. */
  predicate Counts(k: Kind, p: Made, actual: bool) {
    var s := p.snap;
    match k
    case TageRight => s.taken == actual
    case TageWrong => s.taken != actual
    case BaseAloneRight => s.bimodalTaken == actual
    case BaseAloneWrong => s.bimodalTaken != actual
    case Override => p.hit && s.taken != s.bimodalTaken
    case Helped => p.hit && s.taken != s.bimodalTaken && s.taken == actual
    case Harmed => p.hit && s.taken != s.bimodalTaken && s.taken != actual
    case BaseGave => s.provider.None?
    case BaseGaveRight => s.provider.None? && s.taken == actual
    case BaseGaveWrong => s.provider.None? && s.taken != actual
    case CompGave(i) => s.provider == Some(i)
    case CompGaveRight(i) => s.provider == Some(i) && s.taken == actual
    case CompGaveWrong(i) => s.provider == Some(i) && s.taken != actual
  }

  function Counter(k: Kind, st: Stats): nat {
    match k
    case TageRight => st.tageCorrect
    case TageWrong => st.tageMispred
    case BaseAloneRight => st.bimodalCorrect
    case BaseAloneWrong => st.bimodalMispred
    case Override => st.overrides
    case Helped => st.helpful
    case Harmed => st.harmful
    case BaseGave => st.baseUsed
    case BaseGaveRight => st.baseCorrect
    case BaseGaveWrong => st.baseMispred
    case CompGave(i) => if i < |st.compUsed| then st.compUsed[i] else 0
    case CompGaveRight(i) => if i < |st.compCorrect| then st.compCorrect[i] else 0
    case CompGaveWrong(i) => if i < |st.compMispred| then st.compMispred[i] else 0
  }

  /** A resolution is counted if fewer than 512 predictions came since and the branch has not trained yet. */
  predicate Counted(t: Track, m: nat) {
    m < |t.log| && |t.log| - m < 512 && m !in t.trained
  }

  function Tally(c: Config, es: seq<Event>, k: Kind): nat
    requires GoodConfig(c) && Run(c, es).Some?
  {
    if es == [] then 0
    else
      var t, e := Run(c, es[..|es| - 1]).value, es[|es| - 1];
      Tally(c, es[..|es| - 1], k) + if e.Resolve? && Counted(t, e.m) && Counts(k, t.log[e.m], e.actual) then 1 else 0
  }

  lemma CountKind(st: Stats, p: Made, actual: bool, k: Kind)
    requires |st.compUsed| == |st.compCorrect| == |st.compMispred|
    requires p.snap.provider.Some? ==> p.snap.provider.value < |st.compUsed|
    requires p.overrode == (p.hit && p.snap.taken != p.snap.bimodalTaken)
    ensures Counter(k, Count(st, p.snap, actual, p.overrode)) == Counter(k, st) + if Counts(k, p, actual) then 1 else 0
  {
  }

  lemma ProviderOf(t: Track, m: nat)
    requires TrackInv(t) && m < |t.log|
    ensures Sized(t.s) && t.log[m].overrode == (t.log[m].hit && t.log[m].snap.taken != t.log[m].snap.bimodalTaken)
    ensures t.log[m].snap.provider.Some? ==> t.log[m].snap.provider.value < |t.s.stats.compUsed|
  {
    hide CompsOk, StatsOk, Pow2, GhrLen, Indices, Tags;
    assert MadeOk(t.s.cfg, t.log[m]);
  }

  lemma CountStepKind(t: Track, m: nat, actual: bool, k: Kind)
    requires TrackInv(t) && m < |t.log| && |t.log| - m < H.WRAP
    ensures Sized(t.s)
    ensures Counter(k, CountStep(t, m, actual).s.stats) ==
      Counter(k, t.s.stats) + if Counted(t, m) && Counts(k, t.log[m], actual) then 1 else 0
  {
    hide CompsOk, StatsOk, Pow2, GhrLen, Indices, Tags, Counter, Counts, SnapOk, MadeOk, Count;
    ProviderOf(t, m);
    SeesItsOwn(t, m);
    if Counted(t, m) {
      CountKind(t.s.stats, t.log[m], actual, k);
      CountIgnoresValid(t.s.stats, t.log[m].snap, actual, t.log[m].overrode);
    }
  }

  lemma CountIgnoresValid(st: Stats, snap: Snap, actual: bool, overrode: bool)
    requires |st.compUsed| == |st.compCorrect| == |st.compMispred|
    requires snap.provider.Some? ==> snap.provider.value < |st.compUsed|
    ensures Count(st, snap.(valid := true), actual, overrode) == Count(st, snap, actual, overrode)
  {
  }

  lemma StepKind(t: Track, e: Event, k: Kind)
    requires TrackInv(t) && Possible(t, e)
    ensures Counter(k, Step(t, e).s.stats) ==
      Counter(k, t.s.stats) + if e.Resolve? && Counted(t, e.m) && Counts(k, t.log[e.m], e.actual) then 1 else 0
  {
    hide TrackInv, Counter, Counts, Counted, Update, Lookup, CountStep;
    if e.Resolve? {
      CountStepKind(t, e.m, e.actual, k);
      CountSized(t, e.m, e.actual);
      UpdateStats(CountStep(t, e.m, e.actual).s, t.log[e.m].pc, e.actual, IdOf(e.m));
    }
  }

  /** Every counter is the number of counted resolutions of its kind, over every run. */
  lemma {:induction false} ScoresAreCounts(c: Config, es: seq<Event>, k: Kind)
    requires GoodConfig(c) && Run(c, es).Some?
    ensures Counter(k, Run(c, es).value.s.stats) == Tally(c, es, k)
  {
    hide Possible, Step, Counted, Counts, GoodConfig, TrackInv;
    if es == [] {
      StartKind(c, k);
    } else {
      var before := es[..|es| - 1];
      ScoresAreCounts(c, before, k);
      RunInv(c, before);
      StepKind(Run(c, before).value, es[|es| - 1], k);
    }
  }

  lemma StartKind(c: Config, k: Kind)
    requires GoodConfig(c)
    ensures Counter(k, Tage.Init(c).stats) == 0
  {
  }
}

/** What holds in every reachable state of the pipeline. */
module CoreRuns {
  import opened Common
  import opened Isa
  import opened Core
  import opened CoreInv
  import opened CoreSteps
  import opened CoreFetch
  import H = History
  import R = Retire

  lemma Fetch0Inv(c: Core, now: nat, ready: bool, pc: nat, q: Query)
    requires Inv(c)
    ensures var c' := DoFetch0(c, now, ready, pc, q); Inv(c') && Abs(c') == Abs(c)
  {
    hide Inv, Abs;
    if now < c.fs.resumeTick || !ready {
    } else if c.fs.earlyRedir > 0 {
      OrphanReadInv(c);
    } else if OffPath(c.fs) {
      if |c.ifq| < c.cfg.cap { WrongPathInv(c, pc, q); }
    } else {
      UnblockInv(c);
      SameLimits(c);
      var c1 := Unblock(c);
      if |c1.ifq| < c1.cfg.cap && c1.input.Some? { RealFetchInv(c1, now, q); }
    }
  }

  lemma SameLimits(c: Core)
    ensures Unblock(c).cfg == c.cfg && !Unblock(c).fs.wrongPath
  {
  }

  lemma KindsAppend(trace: seq<Inst>, inst: Inst)
    ensures Kinds(trace + [inst]) == Kinds(trace) + [R.Kind(inst.dst, !inst.ext.ExtNone?)]
  {
  }

  lemma FeedFront(c: Core, inst: Inst)
    requires FrontOk(c.cfg, c.log.trace, c.input, c.ifq, c.fetch, c.decode, Front(c)) && WellFormed(inst)
    requires BackOk(c.execute, c.mem, c.mul, c.div, c.log.trace) && c.input.None?
    ensures var c' := FeedInst(c, inst);
      && FrontOk(c'.cfg, c'.log.trace, c'.input, c'.ifq, c'.fetch, c'.decode, Front(c))
      && BackOk(c'.execute, c'.mem, c'.mul, c'.div, c'.log.trace)
  {
    hide WellFormed;
    var c' := FeedInst(c, inst);
    forall t | t in Front(c) ensures Good(t, c'.log.trace) {
      assert Good(t, c.log.trace);
    }
  }

  lemma FeedAbs(c: Core, inst: Inst)
    requires c.input.None?
    ensures var c' := FeedInst(c, inst);
      Front(c') == Front(c) && Abs(c') == R.Do(Abs(c), R.Feed(R.Kind(inst.dst, !inst.ext.ExtNone?)))
  {
    KindsAppend(c.log.trace, inst);
    hide Pos, Kinds, AtBoth;
  }

  lemma FeedInv(c: Core, inst: Inst)
    requires Inv(c) && c.input.None? && WellFormed(inst)
    ensures var c' := FeedInst(c, inst);
      Inv(c') && Abs(c') == R.Do(Abs(c), R.Feed(R.Kind(inst.dst, !inst.ext.ExtNone?)))
  {
    var c' := FeedInst(c, inst);
    var a := R.Feed(R.Kind(inst.dst, !inst.ext.ExtNone?));
    FeedAbs(c, inst);
    hide R.Inv, BranchesOk, RingFits, OrphansOk, HistoryOk, PathOk, LsuOk, Scoreboard, FrontOk, BackOk, Abs, Front;
    FeedFront(c, inst);
    R.StepInv(Abs(c), a);
  }

  /** The step of the retirement machine that an event may make. */
  ghost predicate Refines(a: R.State, a': R.State) {
    a' == a || exists act :: R.Enabled(a, act) && a' == R.Do(a, act)
  }

  /** One event: no assert fails, the invariant is kept, and retirement moves by at most one step. */
  lemma StepInv(c: Core, e: Event)
    requires Inv(c) && Possible(c, e)
    ensures AssertsHold(c, e)
    ensures Inv(Step(c, e)) && Refines(Abs(c), Abs(Step(c, e)))
  {
    hide Inv, Abs, R.Enabled, R.Do;
    match e {
      case Feed(inst) =>
        FeedInv(c, inst);
        FeedEnabled(Abs(c), R.Kind(inst.dst, !inst.ext.ExtNone?));
      case Fetch0(now, ready, pc, q) => Fetch0Inv(c, now, ready, pc, q);
      case Fetch1 => Fetch1Inv(c);
      case Decode(ready) => DecodeInv(c, ready);
      case Execute(now) => ExecuteInv(c, now);
      case Mul(now) => MulInv(c, now);
      case Div(now) => DivInv(c, now);
      case Memory(ready) => MemoryInv(c, ready);
      case Writeback(now) => WritebackInv(c, now);
      case IfuResp => IfuRespInv(c);
      case LsuResp => LsuRespInv(c);
    }
  }

  lemma FeedEnabled(a: R.State, k: R.Kind)
    ensures R.Enabled(a, R.Feed(k))
  {
  }

  // ---------------------------------------------------------------- runs

  /** The state after a sequence of events; None if an event is not possible or runs into an assert. */
  function Run(c: Core, es: seq<Event>): Option<Core> {
    if es == [] then Some(c)
    else
      match Run(c, es[..|es| - 1])
      case None => None
      case Some(d) =>
        var e := es[|es| - 1];
        if Possible(d, e) && AssertsHold(d, e) then Some(Step(d, e)) else None
  }

  ghost predicate Reachable(c: Core) {
    exists cfg, mode, len, es :: RingFits(cfg, mode) && Run(Init(cfg, mode, len), es) == Some(c)
  }

  lemma RunInv(cfg: Config, mode: H.Mode, len: nat, es: seq<Event>)
    requires RingFits(cfg, mode)
    ensures var r := Run(Init(cfg, mode, len), es); r.Some? ==> Inv(r.value)
  {
    hide Inv, Step, Possible;
    if es == [] {
      InitInv(cfg, mode, len);
    } else {
      RunInv(cfg, mode, len, es[..|es| - 1]);
      var d := Run(Init(cfg, mode, len), es[..|es| - 1]);
      if d.Some? && Possible(d.value, es[|es| - 1]) { StepInv(d.value, es[|es| - 1]); }
    }
  }

  lemma ReachableInv(c: Core)
    requires Reachable(c)
    ensures Inv(c)
  {
    hide Inv;
    var cfg, mode, len, es :| RingFits(cfg, mode) && Run(Init(cfg, mode, len), es) == Some(c);
    RunInv(cfg, mode, len, es);
  }

  /** No assert of the front end or of the load/store port fails in a reachable state, so a possible event never gets stuck. */
  lemma NoAssertFails(c: Core, e: Event)
    requires Reachable(c) && Possible(c, e)
    ensures AssertsHold(c, e) && Reachable(Step(c, e))
  {
    hide Inv, Step, Possible, AssertsHold, Run, Refines, Abs;
    ReachableInv(c);
    StepInv(c, e);
    var cfg, mode, len, es :| RingFits(cfg, mode) && Run(Init(cfg, mode, len), es) == Some(c);
    RunSnoc(Init(cfg, mode, len), es, c, e);
    assert Run(Init(cfg, mode, len), es + [e]) == Some(Step(c, e));
  }

  lemma InitReachable(cfg: Config, mode: H.Mode, len: nat)
    requires RingFits(cfg, mode)
    ensures Reachable(Init(cfg, mode, len))
  {
    hide Init, RingFits;
    assert Run(Init(cfg, mode, len), []) == Some(Init(cfg, mode, len));
  }

  lemma RunSnoc(c: Core, es: seq<Event>, d: Core, e: Event)
    requires Run(c, es) == Some(d) && Possible(d, e) && AssertsHold(d, e)
    ensures Run(c, es + [e]) == Some(Step(d, e))
  {
    hide Step, Possible, AssertsHold;
    assert (es + [e])[..|es + [e]| - 1] == es;
  }

  /** The states inside a tick are reachable one handler at a time. */
  lemma TickReachable(c: Core, now: nat, e: Env)
    requires Reachable(c)
    ensures Reachable(BackEnd(c, now, e))
    ensures Reachable(FrontEnd(BackEnd(c, now, e), now, e))
    ensures Reachable(Update(c, now, e))
  {
    hide Reachable, DoWriteback, DoMemory, DoDivExt, DoMulExt, DoExecute, DoDecode, DoFetch1, DoFetch0;
    BackEndReachable(c, now, e);
    FrontEndReachable(BackEnd(c, now, e), now, e);
    NoAssertFails(FrontEnd(BackEnd(c, now, e), now, e), Event.Fetch0(now, e.icReady, e.pc, e.q));
  }

  lemma BackEndReachable(c: Core, now: nat, e: Env)
    requires Reachable(c)
    ensures Reachable(BackEnd(c, now, e))
  {
    hide Reachable, DoWriteback, DoMemory, DoDivExt, DoMulExt;
    if e.dueWb && WbValid(c, now) { NoAssertFails(c, Event.Writeback(now)); }
    var c1 := if e.dueWb && WbValid(c, now) then DoWriteback(c, now) else c;
    if e.dueMem && c1.mem.None? && c1.execute.Some? { NoAssertFails(c1, Event.Memory(e.lsuReady)); }
    var c2 := if e.dueMem && c1.mem.None? && c1.execute.Some? then DoMemory(c1, e.lsuReady) else c1;
    if e.dueDiv && c2.div.None? && c2.decode.Some? { NoAssertFails(c2, Event.Div(now)); }
    var c3 := if e.dueDiv && c2.div.None? && c2.decode.Some? then DoDivExt(c2, now) else c2;
    if e.dueMul && c3.mul.None? && c3.decode.Some? { NoAssertFails(c3, Event.Mul(now)); }
  }

  lemma FrontEndReachable(c: Core, now: nat, e: Env)
    requires Reachable(c)
    ensures Reachable(FrontEnd(c, now, e))
  {
    hide Reachable, DoExecute, DoDecode, DoFetch1;
    if e.dueEx && c.execute.None? && c.decode.Some? { NoAssertFails(c, Event.Execute(now)); }
    var c1 := if e.dueEx && c.execute.None? && c.decode.Some? then DoExecute(c, now) else c;
    if e.dueId && c1.decode.None? && c1.fetch.Some? { NoAssertFails(c1, Event.Decode(e.operands)); }
    var c2 := if e.dueId && c1.decode.None? && c1.fetch.Some? then DoDecode(c1, e.operands) else c1;
    if e.dueIf && c2.fetch.None? { NoAssertFails(c2, Event.Fetch1); }
  }

  // ---------------------------------------------------------------- main results

  /** Every fed instruction is committed or in flight, never both, and ongoing_insts_ counts the latter. */
  lemma ExactlyOnce(c: Core)
    requires Reachable(c)
    ensures c.ongoing == |c.log.trace| - |c.log.commits| >= 0
    ensures forall p: nat :: p < |c.log.trace| <==> p in c.log.commits || R.InFlight(Abs(c), p)
    ensures forall p: nat :: !(p in c.log.commits && R.InFlight(Abs(c), p))
    ensures forall i, j :: 0 <= i < j < |c.log.commits| ==> c.log.commits[i] != c.log.commits[j]
  {
    ReachableInv(c);
    hide FrontOk, BackOk, PathOk, OrphansOk, HistoryOk, BranchesOk, LsuOk, Scoreboard, Pos, AtBoth;
    R.Partition(Abs(c));
  }

  /** is_finished holds only when everything fed has been committed. */
  lemma DrainedMeansCommitted(c: Core)
    requires Reachable(c) && c.ongoing == 0
    ensures forall p: nat :: p < |c.log.trace| <==> p in c.log.commits
  {
    ExactlyOnce(c);
    ReachableInv(c);
    hide FrontOk, BackOk, PathOk, OrphansOk, HistoryOk, BranchesOk, LsuOk, Scoreboard, Pos, AtBoth, R.Inv;
    assert Abs(c).front == [] && Abs(c).back == [] && Abs(c).ext == [];
  }

  /** The EX flush discards placeholders only: what is in flight is the same before and after. */
  lemma FlushLosesNothing(c: Core, now: nat, p: nat)
    requires Reachable(c) && Possible(c, Execute(now))
    ensures var c' := DoExecute(c, now);
      && c'.ongoing == c.ongoing && c'.log == c.log
      && (R.InFlight(Abs(c'), p) <==> R.InFlight(Abs(c), p))
      && (c.decode.value.brMispred && c.decode.value.inst.ext.ExtNone? ==>
            c'.ifq == [] && c'.fetch.None? && forall t | t in Cons(c.fetch, c.ifq) :: t.isWrongPath && !t.counted)
  {
    hide Inv, Abs, Front;
    ReachableInv(c);
    ExecuteInv(c, now);
    if c.decode.value.brMispred { OnlyPlaceholdersBehind(c); }
    DecodeHead(c);
    var c' := DoExecute(c, now);
    if Abs(c') != Abs(c) { IssueKeepsFlight(Abs(c), p); }
  }

  lemma IssueKeepsFlight(a: R.State, p: nat)
    requires R.Enabled(a, R.Issue)
    ensures R.InFlight(R.Do(a, R.Issue), p) <==> R.InFlight(a, p)
  {
    assert a.front == [a.front[0]] + a.front[1..];
  }

  /** At most one unresolved misprediction is in flight, and everything fetched after it is a placeholder. */
  lemma OneMisprediction(c: Core, i: nat, j: nat)
    requires Reachable(c) && i < |Front(c)| && j < |Front(c)| && Front(c)[i].brMispred
    ensures Front(c)[j].brMispred ==> i == j
    ensures i < j ==> Front(c)[j].isWrongPath
    ensures j <= i ==> !Front(c)[j].isWrongPath
  {
    ReachableInv(c);
    hide R.Inv, BackOk, OrphansOk, HistoryOk, BranchesOk, LsuOk, Scoreboard, CountOk, Abs, Front;
    var f := Front(c);
    assert f[i] in f && f[j] in f;
    assert OffPath(c.fs);
    var b: nat :| MispredAt(f, b);
  }

  /** Commits that write one register happen in trace order. */
  lemma WritesInTraceOrder(c: Core, i: nat, j: nat)
    requires Reachable(c) && i < j < |c.log.commits|
    requires var p, q := c.log.commits[i], c.log.commits[j];
      p < |c.log.trace| && q < |c.log.trace| && c.log.trace[p].dst == c.log.trace[q].dst != 0
    ensures c.log.commits[i] < c.log.commits[j]
  {
    ReachableInv(c);
    hide FrontOk, BackOk, PathOk, OrphansOk, HistoryOk, BranchesOk, LsuOk, Scoreboard, Pos, AtBoth, CountOk;
    assert R.SameRegister(Abs(c), c.log.commits[i], c.log.commits[j]);
  }

  /** MUL and DIV commit only when everything older has; others overtake at most one of them, with another register. */
  lemma CommitOrder(c: Core, now: nat, q: nat)
    requires Reachable(c) && CommitSource(c, now) != Nothing
    requires var c' := DoWriteback(c, now); q < c'.log.commits[|c.log.commits|] && q !in c.log.commits
    ensures CommitSource(c, now) == FromMem && Abs(c).ext == [q]
    ensures q < |c.log.trace| && (c.log.trace[q].dst == 0 || c.log.trace[q].dst != c.mem.value.inst.dst)
  {
    ReachableInv(c);
    WritebackInv(c, now);
    hide FrontOk, PathOk, OrphansOk, HistoryOk, BranchesOk, LsuOk, Scoreboard, Pos, CountOk, R.Inv;
    if CommitSource(c, now) == FromMem {
      assert Abs(c).back[0] == c.mem.value.pos;
      R.BackOvertakesOnlyExt(Abs(c), q);
    } else {
      assert Abs(c).ext[0] == DoWriteback(c, now).log.commits[|c.log.commits|];
      R.ExtCommitsInOrder(Abs(c), q);
    }
    ExtIsFed(c, q);
  }

  lemma ExtIsFed(c: Core, q: nat)
    requires Inv(c)
    ensures q in Abs(c).ext ==> q < |c.log.trace|
  {
    hide FrontOk, PathOk, OrphansOk, HistoryOk, BranchesOk, LsuOk, Scoreboard, Pos, CountOk, R.Inv;
  }

  /** A response that is not an orphan is given to the queue entry whose own read it answers. */
  lemma ResponseFindsItsOwner(c: Core)
    requires Reachable(c) && c.log.outstanding != []
    ensures c.fs.respIsOrphan != []
    ensures !c.fs.respIsOrphan[0] ==>
      FirstWaiting(c.ifq) < |c.ifq| && c.ifq[FirstWaiting(c.ifq)].rid == c.log.outstanding[0]
  {
    ReachableInv(c);
    IfuRespInv(c);
  }

  /** One FIFO entry per outstanding read; those not marked orphan are the waiting entries, a suffix of the queue. */
  lemma OrphanFifo(c: Core)
    requires Reachable(c)
    ensures |c.fs.respIsOrphan| == |c.log.outstanding|
    ensures Wanted(c.fs.respIsOrphan, c.log.outstanding) == Waiting(c.ifq)
    ensures forall i, j :: 0 <= i < j < |c.ifq| && c.ifq[i].waitMem ==> c.ifq[j].waitMem
  {
    ReachableInv(c);
    hide R.Inv, BackOk, FrontOk, PathOk, HistoryOk, BranchesOk, LsuOk, Scoreboard, CountOk, Abs, Front;
  }

  /** Every right-path lookup sees exactly the contributions of the older right-path branches. */
  lemma HistoryIsRightPath(c: Core, b: Seen)
    requires Reachable(c) && !c.hist.mode.NoHistory? && b in c.log.branches
    ensures b.predNo < |c.log.predLog| && b.before <= |c.log.contrib|
    ensures c.log.predLog[b.predNo] == H.LastBits(c.log.contrib[..b.before], |c.hist.ghr|)
  {
    ReachableInv(c);
    hide R.Inv, BackOk, FrontOk, PathOk, HistoryOk, OrphansOk, LsuOk, Scoreboard, CountOk, Abs, Front;
  }

  /** With no return stack, TAGE's history is the true direction of every branch that hit the BTB or was taken. */
  lemma TageHistoryIsTruth(c: Core)
    requires Reachable(c) && c.hist.mode.Tage?
    requires forall b | b in c.log.branches :: !b.viaRas
    ensures c.log.contrib == Outcomes(c.log.branches)
  {
    ReachableInv(c);
    hide R.Inv, BackOk, FrontOk, PathOk, HistoryOk, OrphansOk, LsuOk, Scoreboard, CountOk, Abs, Front;
  }

  /**
   A branch not yet resolved is at most |queue| + 2 lookups old, so the ring still holds the register its
   own prediction saw and the overflow guard accepts it.
   */
  lemma SnapshotIsOwn(c: Core, i: nat)
    requires Reachable(c) && c.hist.mode.Tage?
    requires i < |Front(c)| && !Front(c)[i].isWrongPath && Front(c)[i].inst.isBranch
    ensures var t := Front(c)[i];
      && t.predNo.Some? && t.predNo.value < |c.log.predLog|
      && |c.log.predLog| - t.predNo.value <= c.cfg.cap + 2
      && t.pred.snap == H.Slot(t.predNo.value % H.WRAP)
      && H.Fresh(c.hist.wr, t.pred.snap.id)
      && c.hist.ring[t.pred.snap.id % H.RING] == c.log.predLog[t.predNo.value]
  {
    ReachableInv(c);
    FrontFits(c);
    hide R.Inv, BackOk, FrontOk, PathOk, OrphansOk, BranchesOk, LsuOk, Scoreboard, CountOk, Abs, Front;
    assert PredictedOk(c.hist.mode, c.log.predLog, Front(c), i);
    var m := Front(c)[i].predNo.value;
    H.GuardExact(c.hist, c.log.predLog, m);
    H.SlotOf(m);
  }

  /** A memory response arrives only for the access in Execute, and there is never more than one access out. */
  lemma OneAccessOut(c: Core)
    requires Reachable(c)
    ensures c.log.lsuOut ==> c.execute.Some? && c.execute.value.waitMem && c.mem.None?
    ensures c.log.lsuOut && Possible(c, Memory(true)) ==> DoMemory(c, true) == c
  {
    ReachableInv(c);
    hide R.Inv, BackOk, FrontOk, PathOk, OrphansOk, HistoryOk, BranchesOk, Scoreboard, CountOk, Abs, Front;
  }

  /** The placeholder branch of do_decode and the non-branch flush are never taken. */
  lemma DeadBranches(c: Core, now: nat)
    requires Reachable(c)
    ensures Possible(c, Decode(true)) ==> !c.fetch.value.isWrongPath
    ensures c.decode.Some? ==> FlushFalseHit(c, c.decode.value, now) == c
  {
    ReachableInv(c);
    if Possible(c, Decode(true)) { NoPlaceholderAtDecode(c); }
    if c.decode.Some? { DecodeHead(c); }
  }
}

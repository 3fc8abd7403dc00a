/** What single stages of the pipeline do, in terms of trace records, predictor answers and ticks alone. */
module StageOutcomes {
  import opened Common
  import opened Isa
  import opened Core
  import H = History
  import CR = CoreRuns

  // ---------------------------------------------------------------- fetch of a real instruction

  /** Where the front end goes after a branch: the return address on a BTB hit with a return entry, else the BTB target if predicted taken; 0 for straight on. */
  function Redirect(q: Query): nat {
    if q.btb != 0 && q.ras.Some? then q.ras.value else if q.dir then q.btb else 0
  }

  /** A launch: the pending instruction leaves the input buffer. */
  predicate Launches(c: Core, now: nat, ready: bool, pc: nat, q: Query) {
    c.input.Some? && DoFetch0(c, now, ready, pc, q).input.None?
  }

  /** do_fetch_0 launches the pending instruction exactly when nothing of higher priority holds it back. */
  lemma LaunchIff(c: Core, now: nat, ready: bool, pc: nat, q: Query)
    ensures Launches(c, now, ready, pc, q)
       <==> && c.input.Some? && ready && now >= c.fs.resumeTick && c.fs.earlyRedir == 0
            && (c.fs.wrongPath ==> c.fs.wpFlushed) && |c.ifq| < c.cfg.cap
  {
    hide H.Predict, Judge;
  }

  lemma LaunchForm(c: Core, now: nat, ready: bool, pc: nat, q: Query)
    requires Launches(c, now, ready, pc, q)
    ensures DoFetch0(c, now, ready, pc, q) == RealFetch(Unblock(c), now, q) && c.fs.earlyRedir == 0 && !Unblock(c).fs.wrongPath
  {
    hide WrongPathFetch, RealFetch, IssueRead;
    LaunchIff(c, now, ready, pc, q);
  }

  /** predict_at_fetch and judge. */
  lemma ClassifyOutcome(c: Core, i: Inst, q: Query)
    ensures var (c1, pred, accurate) := Classify(c, i, q);
      && (!i.isBranch ==> accurate)
      && (i.isBranch && i.brTaken ==> (accurate <==> Redirect(q) != 0 && Redirect(q) == i.memAddr))
      && (i.isBranch && !i.brTaken ==> (accurate <==> Redirect(q) == 0))
      && (pred.willRedirect <==> i.isBranch && Redirect(q) != 0)
      && (pred.overrode <==> i.isBranch && c.hist.mode.Tage? && q.btb != 0 && q.dir != q.baseDir)
      && c1 == c.(hist := c1.hist, log := c1.log)
      && c1.log.outstanding == c.log.outstanding && c1.log.nextRid == c.log.nextRid
  {
    hide H.Predict, Contribution;
  }

  /**
   The prediction of a launched branch is right exactly if the front end goes where the trace goes: to a
   non-zero address equal to the branch target for a taken branch, straight on for one not taken. Nothing
   else is ever judged mispredicted.
   */
  lemma LaunchJudged(c: Core, now: nat, ready: bool, pc: nat, q: Query)
    requires Launches(c, now, ready, pc, q)
    ensures var c' := DoFetch0(c, now, ready, pc, q);
      && |c'.ifq| == |c.ifq| + 1
      && var t, i := c'.ifq[|c.ifq|], c.input.value.inst;
         && t.inst == i && t.pos == c.input.value.pos && t.waitMem
         && (!i.isBranch ==> !t.brMispred)
         && (i.isBranch && i.brTaken ==> (!t.brMispred <==> Redirect(q) != 0 && Redirect(q) == i.memAddr))
         && (i.isBranch && !i.brTaken ==> (!t.brMispred <==> Redirect(q) == 0))
  {
    hide Classify, DoFetch0, Redirect;
    LaunchForm(c, now, ready, pc, q);
    ClassifyOutcome(Unblock(c).(input := None), c.input.value.inst, q);
  }

  /** What a launch means for the next fetches: wrong-path mode, sequential reads before a redirect, the extra cycle of an override. */
  lemma LaunchSteers(c: Core, now: nat, ready: bool, pc: nat, q: Query)
    requires Launches(c, now, ready, pc, q)
    ensures var c' := DoFetch0(c, now, ready, pc, q);
      && |c'.ifq| == |c.ifq| + 1
      && var t, i := c'.ifq[|c.ifq|], c.input.value.inst;
         && (c'.fs.wrongPath <==> t.brMispred)
         && c'.fs.earlyRedir == (if i.isBranch && !t.brMispred && Redirect(q) != 0 then 2 else 0)
         && c'.fs.resumeTick == (if i.isBranch && c.hist.mode.Tage? && q.btb != 0 && q.dir != q.baseDir
                                 then Max(c.fs.resumeTick, now + 2) else c.fs.resumeTick)
         && t.hold == (if i.isBranch && c.cfg.noBpu then (if i.brTaken then 2 else 0) else c.input.value.hold)
         && c'.fs.respIsOrphan == c.fs.respIsOrphan + [false]
         && t.rid == c.log.nextRid && c'.log.outstanding == c.log.outstanding + [c.log.nextRid]
  {
    hide Classify, DoFetch0, Redirect;
    LaunchForm(c, now, ready, pc, q);
    ClassifyOutcome(Unblock(c).(input := None), c.input.value.inst, q);
  }

  // ---------------------------------------------------------------- sequential reads before a redirect

  /** One call of do_fetch_0: a read announced by a redirect is an orphan and leaves queue and input alone; others belong to a queue entry. */
  lemma FetchReads(c: Core, now: nat, ready: bool, pc: nat, q: Query)
    ensures var c' := DoFetch0(c, now, ready, pc, q);
      && c.log.nextRid <= c'.log.nextRid <= c.log.nextRid + 1
      && (c'.log.nextRid == c.log.nextRid ==> c'.fs.earlyRedir == c.fs.earlyRedir)
      && (c'.log.nextRid > c.log.nextRid && c.fs.earlyRedir > 0 ==>
            && c'.fs.earlyRedir == c.fs.earlyRedir - 1
            && c'.ifq == c.ifq && c'.input == c.input && c'.fs.respIsOrphan == c.fs.respIsOrphan + [true])
      && (c'.log.nextRid > c.log.nextRid && c.fs.earlyRedir == 0 ==>
            c'.fs.respIsOrphan == c.fs.respIsOrphan + [false] && |c'.ifq| == |c.ifq| + 1)
  {
    hide H.Predict, Judge, Lookup, Contribution;
  }

  /** An execution that flushes the front end. */
  predicate Flushes(c: Core, e: Event) {
    && c.decode.Some? && c.decode.value.brMispred
    && (e.Execute? || e.Mul? || e.Div?)
  }

  /** The other events read nothing and announce nothing, unless they flush. */
  lemma OthersKeepReads(c: Core, e: Event)
    requires Possible(c, e) && AssertsHold(c, e) && !Flushes(c, e) && !e.Fetch0?
    ensures var c' := Step(c, e); c'.log.nextRid == c.log.nextRid && c'.fs.earlyRedir == c.fs.earlyRedir
  {
    hide Flush, H.Repair, DoFetch0, FirstWaiting, Legacy;
  }

  /** A run without a flush. */
  predicate Calm(c: Core, es: seq<Event>)
    decreases |es|
  {
    es == [] || (Calm(c, es[..|es| - 1]) &&
                 match CR.Run(c, es[..|es| - 1])
                 case None => true
                 case Some(d) => !Flushes(d, es[|es| - 1]))
  }

  /** The reads of a calm run count down the announced ones. */
  lemma {:induction false} EarlyCount(c: Core, es: seq<Event>)
    requires CR.Run(c, es).Some? && Calm(c, es)
    ensures var d := CR.Run(c, es).value;
      && d.log.nextRid >= c.log.nextRid
      && (d.log.nextRid - c.log.nextRid <= c.fs.earlyRedir ==> d.fs.earlyRedir == c.fs.earlyRedir - (d.log.nextRid - c.log.nextRid))
  {
    hide Possible, AssertsHold, Step, Flushes;
    if es != [] {
      var n := |es| - 1;
      EarlyCount(c, es[..n]);
      EarlyStep(CR.Run(c, es[..n]).value, es[n]);
    }
  }

  lemma EarlyStep(c: Core, e: Event)
    requires Possible(c, e) && AssertsHold(c, e) && !Flushes(c, e)
    ensures var c' := Step(c, e);
      && c.log.nextRid <= c'.log.nextRid <= c.log.nextRid + 1
      && (c'.log.nextRid == c.log.nextRid ==> c'.fs.earlyRedir == c.fs.earlyRedir)
      && (c'.log.nextRid > c.log.nextRid && c.fs.earlyRedir > 0 ==> c'.fs.earlyRedir == c.fs.earlyRedir - 1)
  {
    hide DoFetch0, DoFetch1, DoDecode, DoExecute, DoMulExt, DoDivExt, DoMemory, DoWriteback, HandleIfuResp, HandleLsuResp, FeedInst;
    if e.Fetch0? { FetchReads(c, e.at, e.ready, e.pc, e.q); } else { OthersKeepReads(c, e); }
  }

  /**
   After an accurate branch that redirects, and until a flush, exactly the next two reads are orphans of the
   sequential path; the third belongs to a queue entry again.
   */
  lemma TwoOrphans(c: Core, now: nat, ready: bool, pc: nat, q: Query, es: seq<Event>, at: nat, pc': nat, q': Query)
    requires Launches(c, now, ready, pc, q) && c.input.value.inst.isBranch && Redirect(q) != 0
    requires var c1 := DoFetch0(c, now, ready, pc, q);
      && |c1.ifq| > |c.ifq| && !c1.ifq[|c.ifq|].brMispred
      && CR.Run(c1, es).Some? && Calm(c1, es)
    ensures var c1 := DoFetch0(c, now, ready, pc, q);
      var d := CR.Run(c1, es).value;
      var d' := DoFetch0(d, at, true, pc', q');
      var issued := d.log.nextRid - c1.log.nextRid;
      issued >= 0 && (issued <= 2 && d'.log.nextRid > d.log.nextRid ==>
        && d'.fs.respIsOrphan == d.fs.respIsOrphan + [issued < 2]
        && (if issued < 2 then d'.ifq == d.ifq && d'.input == d.input else |d'.ifq| == |d.ifq| + 1))
  {
    hide DoFetch0, CR.Run, Calm, Redirect;
    LaunchSteers(c, now, ready, pc, q);
    var c1 := DoFetch0(c, now, ready, pc, q);
    EarlyCount(c1, es);
    FetchReads(CR.Run(c1, es).value, at, true, pc', q');
  }

  // ---------------------------------------------------------------- decode, flush and the units

  /** Decode takes the instruction in Fetch exactly if it is real, its operands are ready, and no unit holds its register or, for another of the M extension, any instruction. */
  lemma DecodeIff(c: Core, operands: bool)
    requires c.fetch.Some? && c.decode.None?
    ensures var t := c.fetch.value;
      DoDecode(c, operands).decode == c.fetch
      <==> && !t.isWrongPath && operands
           && (t.inst.ext != ExtNone ==> c.mul.None? && c.div.None?)
           && (t.inst.dst != 0 && c.mul.Some? ==> c.mul.value.inst.dst != t.inst.dst)
           && (t.inst.dst != 0 && c.div.Some? ==> c.div.value.inst.dst != t.inst.dst)
    ensures var c' := DoDecode(c, operands);
      if c.fetch.value.isWrongPath then c' == c.(fetch := None)
      else c' == c || c' == c.(decode := c.fetch, fetch := None)
  {
  }

  /** After the flush of a mispredicted branch the front end reads nothing in that tick, and may again in the next. */
  lemma FlushHoldsFetch(c: Core, now: nat, at: nat, ready: bool, pc: nat, q: Query)
    requires c.decode.Some? && c.execute.None? && c.decode.value.inst.isBranch && c.decode.value.brMispred && c.decode.value.inst.ext == ExtNone
    ensures var c' := DoExecute(c, now);
      && c'.execute == c.decode && c'.decode.None? && c'.ifq == [] && c'.fetch.None?
      && (at < now + 1 ==> DoFetch0(c', at, ready, pc, q) == c')
      && (at >= now + 1 && ready && c.input.Some? && c.cfg.cap > 0 ==> Launches(c', at, ready, pc, q))
  {
    hide H.Repair, H.Predict, Judge, CountCounted, WrongPathFetch, RealFetch;
    LaunchIff(DoExecute(c, now), at, ready, pc, q);
  }

  /** A queue entry reaches Fetch in the call of do_fetch_1 that finds its data there and its hold used up; each call before uses up one. */
  lemma HoldDelays(c: Core)
    requires c.fetch.None? && c.ifq != []
    ensures var c' := DoFetch1(c); var t := c.ifq[0];
      && (c'.fetch == Some(t) <==> !t.waitMem && t.hold == 0)
      && (!t.waitMem && t.hold > 0 ==> c'.fetch.None? && c'.ifq == c.ifq[0 := t.(hold := t.hold - 1)])
      && (t.waitMem ==> c' == c)
      && (c'.fetch.Some? ==> c'.ifq == c.ifq[1..])
  {
  }

  /**
   do_memory on the instruction in Execute. Without a memory operation it moves on. A load or store goes out, once,
   when its port is ready, and stays until it is answered. One that is not in a memory region and has no bypass
   port is never sent: the first call makes it wait, the next moves it on.
   */
  lemma MemoryRoutes(c: Core, portReady: bool)
    requires c.execute.Some? && c.mem.None?
    ensures var t := c.execute.value;
      var top := t.inst.memAddr / 0x1000_0000 % 16;
      var inside := !t.inst.memOp.MemNone? && !(top == 3 || 8 <= top <= 11) && !c.cfg.hasBypass;
      var waiting := c.execute.value.(waitMem := true);
      DoMemory(c, portReady) ==
        if inside && t.waitMem then c.(mem := Some(t.(waitMem := false)), execute := None)
        else if inside then c.(execute := Some(waiting))
        else if t.waitMem then c
        else if t.inst.memOp.MemNone? then c.(mem := c.execute, execute := None)
        else if portReady then c.(execute := Some(waiting), log := c.log.(lsuOut := true))
        else c
  {
  }

  lemma FetchKeepsUnits(c: Core, now: nat, ready: bool, pc: nat, q: Query)
    ensures var c' := DoFetch0(c, now, ready, pc, q);
      c'.mul == c.mul && c'.mulReady == c.mulReady && c'.div == c.div && c'.divReady == c.divReady
  {
    hide H.Predict, Judge, Lookup, Contribution;
  }

  /** While a unit stays occupied, its instruction and its ready tick stay. */
  lemma UnitsKeep(c: Core, e: Event)
    requires Possible(c, e) && AssertsHold(c, e)
    ensures var c' := Step(c, e);
      && (c.mul.Some? && c'.mul.Some? ==> c'.mul == c.mul && c'.mulReady == c.mulReady)
      && (c.div.Some? && c'.div.Some? ==> c'.div == c.div && c'.divReady == c.divReady)
  {
    hide H.Repair, CountCounted, AllTrue, FirstWaiting, DoFetch0, Legacy;
    if e.Fetch0? { FetchKeepsUnits(c, e.at, e.ready, e.pc, e.q); }
  }

  /** The units stay occupied over a whole run. */
  predicate Busy(c: Core, es: seq<Event>, mul: bool)
    decreases |es|
  {
    && (es == [] || Busy(c, es[..|es| - 1], mul))
    && match CR.Run(c, es)
       case None => false
       case Some(d) => if mul then d.mul.Some? else d.div.Some?
  }

  lemma {:induction false} BusyKeeps(c: Core, es: seq<Event>, mul: bool)
    requires Busy(c, es, mul)
    ensures var d := CR.Run(c, es).value;
      if mul then d.mul == c.mul && d.mulReady == c.mulReady else d.div == c.div && d.divReady == c.divReady
  {
    hide Possible, AssertsHold, Step;
    if es != [] {
      BusyKeeps(c, es[..|es| - 1], mul);
      UnitsKeep(CR.Run(c, es[..|es| - 1]).value, es[|es| - 1]);
    }
  }

  /** A multiplication that entered its unit at tick `at` commits in a tick if and only if that is at least 4 later and neither Memory, Execute nor a finished division is in its way. */
  lemma MulTakesFour(c: Core, at: nat, es: seq<Event>, now: nat)
    requires c.decode.Some? && c.mul.None? && (c.decode.value.inst.ext == IntMulL || c.decode.value.inst.ext == IntMulH)
    requires !c.decode.value.brMispred && Busy(DoMulExt(c, at), es, true)
    ensures DoMulExt(c, at).mul == c.decode && DoMulExt(c, at).decode.None?
    ensures var d := CR.Run(DoMulExt(c, at), es).value;
      CommitSource(d, now) == FromMul
      <==> now >= at + 4 && d.mem.None? && d.execute.None? && !(d.div.Some? && now >= d.divReady)
  {
    BusyKeeps(DoMulExt(c, at), es, true);
    hide CR.Run, Busy;
  }

  /** A division or remainder takes 34 ticks. */
  lemma DivTakesThirtyFour(c: Core, at: nat, es: seq<Event>, now: nat)
    requires c.decode.Some? && c.div.None? && (c.decode.value.inst.ext == IntDiv || c.decode.value.inst.ext == IntRem)
    requires !c.decode.value.brMispred && Busy(DoDivExt(c, at), es, false)
    ensures DoDivExt(c, at).div == c.decode && DoDivExt(c, at).decode.None?
    ensures var d := CR.Run(DoDivExt(c, at), es).value;
      CommitSource(d, now) == FromDiv <==> now >= at + 34 && d.mem.None? && d.execute.None?
  {
    BusyKeeps(DoDivExt(c, at), es, false);
    hide CR.Run, Busy;
  }

  /** What a commit does: the instruction leaves its slot, is recorded, and is no longer counted. */
  lemma CommitRecords(c: Core, now: nat)
    ensures var c' := DoWriteback(c, now);
      && (c.mem.Some? ==> c' == c.(mem := None, ongoing := c.ongoing - 1, log := c.log.(commits := c.log.commits + [c.mem.value.pos])))
      && (c.mem.None? && c.execute.Some? ==> c' == c)
  {
  }

  // ---------------------------------------------------------------- one tick

  /** The same instruction; only the memory wait may differ. */
  predicate SameOrWaits(a: Option<Trans>, b: Option<Trans>) {
    a.Some? && b.Some? && a.value.(waitMem := b.value.waitMem) == b.value
  }

  lemma WritebackMoves(c: Core, now: nat)
    ensures var d := DoWriteback(c, now);
      && (d.mem.Some? ==> d.mem == c.mem) && (d.mul.Some? ==> d.mul == c.mul) && (d.div.Some? ==> d.div == c.div)
      && d.execute == c.execute && d.decode == c.decode && d.fetch == c.fetch && d.ifq == c.ifq
      && |d.log.commits| <= |c.log.commits| + 1
  {
  }

  lemma MemoryMoves(c: Core, ready: bool)
    requires c.execute.Some? && c.mem.None?
    ensures var d := DoMemory(c, ready);
      && (d.mem.Some? ==> SameOrWaits(c.execute, d.mem)) && (d.execute.Some? ==> SameOrWaits(c.execute, d.execute))
      && d.mul == c.mul && d.div == c.div && d.decode == c.decode && d.fetch == c.fetch && d.ifq == c.ifq && d.log.commits == c.log.commits
  {
    hide Legacy;
  }

  lemma DivMoves(c: Core, now: nat)
    requires c.decode.Some? && c.div.None?
    ensures var d := DoDivExt(c, now);
      && (d.div.Some? ==> d.div == c.decode) && (d.decode.Some? ==> d.decode == c.decode) && (d.fetch.Some? ==> d.fetch == c.fetch)
      && d.mem == c.mem && d.execute == c.execute && d.mul == c.mul && d.log.commits == c.log.commits
      && (d.ifq == c.ifq || d.ifq == [])
  {
    hide H.Repair, CountCounted, AllTrue;
  }

  lemma MulMoves(c: Core, now: nat)
    requires c.decode.Some? && c.mul.None?
    ensures var d := DoMulExt(c, now);
      && (d.mul.Some? ==> d.mul == c.decode) && (d.decode.Some? ==> d.decode == c.decode) && (d.fetch.Some? ==> d.fetch == c.fetch)
      && d.mem == c.mem && d.execute == c.execute && d.div == c.div && d.log.commits == c.log.commits
      && (d.ifq == c.ifq || d.ifq == [])
  {
    hide H.Repair, CountCounted, AllTrue;
  }

  lemma UnitsMove(c: Core, now: nat, e: Env)
    ensures var c1 := if e.dueDiv && c.div.None? && c.decode.Some? then DoDivExt(c, now) else c;
      var d := if e.dueMul && c1.mul.None? && c1.decode.Some? then DoMulExt(c1, now) else c1;
      && (d.div.Some? ==> d.div == c.div || d.div == c.decode) && (d.mul.Some? ==> d.mul == c.mul || d.mul == c.decode)
      && (d.decode.Some? ==> d.decode == c.decode) && (d.fetch.Some? ==> d.fetch == c.fetch)
      && d.mem == c.mem && d.execute == c.execute && d.log.commits == c.log.commits && (d.ifq == c.ifq || d.ifq == [])
  {
    hide DoDivExt, DoMulExt;
    if c.div.None? && c.decode.Some? { DivMoves(c, now); }
    var c1 := if e.dueDiv && c.div.None? && c.decode.Some? then DoDivExt(c, now) else c;
    if c1.mul.None? && c1.decode.Some? { MulMoves(c1, now); }
  }

  lemma ExecuteMoves(c: Core, now: nat)
    requires c.decode.Some? && c.execute.None?
    ensures var d := DoExecute(c, now);
      && (d.execute.Some? ==> d.execute == c.decode) && (d.decode.Some? ==> d.decode == c.decode) && (d.fetch.Some? ==> d.fetch == c.fetch)
      && d.mem == c.mem && d.mul == c.mul && d.div == c.div && d.log.commits == c.log.commits
      && d.mulReady == c.mulReady && d.divReady == c.divReady && (d.ifq == c.ifq || d.ifq == [])
  {
    hide H.Repair, CountCounted, AllTrue;
  }

  lemma DecodeMoves(c: Core, ready: bool)
    requires c.fetch.Some? && c.decode.None?
    ensures var d := DoDecode(c, ready);
      (d.decode.Some? ==> d.decode == c.fetch) && (d.fetch.Some? ==> d.fetch == c.fetch) && d == c.(decode := d.decode, fetch := d.fetch)
  {
  }

  lemma Fetch1Moves(c: Core)
    requires c.fetch.None?
    ensures var d := DoFetch1(c);
      (d.fetch.Some? ==> c.ifq != [] && d.fetch == Some(c.ifq[0])) && d == c.(fetch := d.fetch, ifq := d.ifq)
  {
  }

  lemma CommitAndMemoryMove(c: Core, now: nat, e: Env)
    ensures var c1 := if e.dueWb && WbValid(c, now) then DoWriteback(c, now) else c;
      var d := if e.dueMem && c1.mem.None? && c1.execute.Some? then DoMemory(c1, e.lsuReady) else c1;
      && (d.mem.Some? ==> d.mem == c.mem || SameOrWaits(c.execute, d.mem)) && (d.execute.Some? ==> SameOrWaits(c.execute, d.execute))
      && (d.mul.Some? ==> d.mul == c.mul) && (d.div.Some? ==> d.div == c.div)
      && d.decode == c.decode && d.fetch == c.fetch && d.ifq == c.ifq && d.log.commits == c1.log.commits
      && |d.log.commits| <= |c.log.commits| + 1
  {
    hide DoWriteback, DoMemory;
    WritebackMoves(c, now);
    var c1 := if e.dueWb && WbValid(c, now) then DoWriteback(c, now) else c;
    if c1.mem.None? && c1.execute.Some? { MemoryMoves(c1, e.lsuReady); }
  }

  /** Where each back-end slot got its instruction: it was there, or one stage before. */
  lemma BackEndMovesOne(c: Core, now: nat, e: Env)
    ensures var d := BackEnd(c, now, e);
      && (d.mem.Some? ==> d.mem == c.mem || SameOrWaits(c.execute, d.mem))
      && (d.execute.Some? ==> SameOrWaits(c.execute, d.execute))
      && (d.div.Some? ==> d.div == c.div || d.div == c.decode)
      && (d.mul.Some? ==> d.mul == c.mul || d.mul == c.decode)
      && (d.decode.Some? ==> d.decode == c.decode)
      && (d.fetch.Some? ==> d.fetch == c.fetch)
      && (d.ifq == c.ifq || d.ifq == [])
      && |d.log.commits| <= |c.log.commits| + 1
      && d.log.commits == (if e.dueWb && WbValid(c, now) then DoWriteback(c, now).log.commits else c.log.commits)
  {
    hide DoWriteback, DoMemory, DoDivExt, DoMulExt;
    CommitAndMemoryMove(c, now, e);
    var c1 := if e.dueWb && WbValid(c, now) then DoWriteback(c, now) else c;
    UnitsMove(if e.dueMem && c1.mem.None? && c1.execute.Some? then DoMemory(c1, e.lsuReady) else c1, now, e);
  }

  lemma FrontEndMovesOne(c: Core, now: nat, e: Env)
    ensures var d := FrontEnd(c, now, e);
      && d.mem == c.mem && d.div == c.div && d.mul == c.mul && d.log.commits == c.log.commits
      && d.mulReady == c.mulReady && d.divReady == c.divReady
      && (d.execute.Some? ==> d.execute == c.execute || d.execute == c.decode)
      && (d.decode.Some? ==> d.decode == c.decode || d.decode == c.fetch)
      && (d.fetch.Some? ==> d.fetch == c.fetch || (c.ifq != [] && d.fetch == Some(c.ifq[0])))
  {
    hide DoExecute, DoDecode, DoFetch1;
    if c.execute.None? && c.decode.Some? { ExecuteMoves(c, now); }
    var c1 := if e.dueEx && c.execute.None? && c.decode.Some? then DoExecute(c, now) else c;
    if c1.decode.None? && c1.fetch.Some? { DecodeMoves(c1, e.operands); }
    var c2 := if e.dueId && c1.decode.None? && c1.fetch.Some? then DoDecode(c1, e.operands) else c1;
    if c2.fetch.None? { Fetch1Moves(c2); }
  }

  lemma FetchKeepsSlots(c: Core, now: nat, ready: bool, pc: nat, q: Query)
    ensures var d := DoFetch0(c, now, ready, pc, q);
      && d.mem == c.mem && d.div == c.div && d.mul == c.mul && d.log.commits == c.log.commits
      && d.execute == c.execute && d.decode == c.decode && d.fetch == c.fetch
  {
    hide H.Predict, Judge, Lookup, Contribution;
  }

  /** In one tick an instruction advances by at most one stage, and at most one commits. */
  lemma TickMovesOne(c: Core, now: nat, e: Env)
    ensures var d := Update(c, now, e);
      && (d.mem.Some? ==> d.mem == c.mem || SameOrWaits(c.execute, d.mem))
      && (d.execute.Some? ==> SameOrWaits(c.execute, d.execute) || d.execute == c.decode)
      && (d.div.Some? ==> d.div == c.div || d.div == c.decode)
      && (d.mul.Some? ==> d.mul == c.mul || d.mul == c.decode)
      && (d.decode.Some? ==> d.decode == c.decode || d.decode == c.fetch)
      && (d.fetch.Some? ==> d.fetch == c.fetch || (c.ifq != [] && d.fetch == Some(c.ifq[0])))
      && |d.log.commits| <= |c.log.commits| + 1
  {
    hide BackEnd, FrontEnd, DoFetch0;
    BackEndMovesOne(c, now, e);
    FrontEndMovesOne(BackEnd(c, now, e), now, e);
    FetchKeepsSlots(FrontEnd(BackEnd(c, now, e), now, e), now, e.icReady, e.pc, e.q);
  }

  /** An instruction that needs neither memory, nor a unit, nor a flush. */
  predicate Plain(t: Trans) {
    t.inst.memOp.MemNone? && t.inst.ext.ExtNone? && !t.brMispred && !t.isWrongPath && !t.waitMem
  }

  predicate PlainIn(o: Option<Trans>) {
    o.Some? && Plain(o.value)
  }

  predicate AllDue(e: Env) {
    e.dueWb && e.dueMem && e.dueEx && e.dueId && e.dueIf && e.operands
  }

  lemma FullBackEnd(c: Core, now: nat, e: Env)
    requires c.mem.Some? && PlainIn(c.execute) && PlainIn(c.decode) && AllDue(e)
    ensures BackEnd(c, now, e) ==
      c.(mem := c.execute, execute := None, ongoing := c.ongoing - 1, log := c.log.(commits := c.log.commits + [c.mem.value.pos]))
  {
  }

  lemma FullFrontEnd(c: Core, now: nat, e: Env)
    requires c.execute.None? && PlainIn(c.decode) && PlainIn(c.fetch) && AllDue(e)
    requires c.mul.None? && c.div.None? && c.ifq != [] && Plain(c.ifq[0]) && c.ifq[0].hold == 0
    ensures FrontEnd(c, now, e) == c.(execute := c.decode, decode := c.fetch, fetch := Some(c.ifq[0]), ifq := c.ifq[1..])
  {
    hide H.Repair, CountCounted, AllTrue;
  }

  /** A full pipeline of plain instructions commits one of them per tick and moves every other one stage on. */
  lemma FullTick(c: Core, now: nat, e: Env)
    requires c.mem.Some? && PlainIn(c.execute) && PlainIn(c.decode) && PlainIn(c.fetch) && AllDue(e)
    requires c.mul.None? && c.div.None? && c.ifq != [] && Plain(c.ifq[0]) && c.ifq[0].hold == 0
    ensures var d := Update(c, now, e);
      && d.log.commits == c.log.commits + [c.mem.value.pos]
      && d.mem == c.execute && d.execute == c.decode && d.decode == c.fetch && d.fetch == Some(c.ifq[0])
  {
    hide BackEnd, FrontEnd, DoFetch0;
    FullBackEnd(c, now, e);
    FullFrontEnd(BackEnd(c, now, e), now, e);
    FetchKeepsSlots(FrontEnd(BackEnd(c, now, e), now, e), now, e.icReady, e.pc, e.q);
  }

  /** The commit of a tick in which write-back is due: Memory first; else, with Execute empty, a finished division, then a finished multiplication. */
  lemma TickCommits(c: Core, now: nat, e: Env)
    ensures Update(c, now, e).log.commits ==
      if !e.dueWb then c.log.commits
      else if c.mem.Some? then c.log.commits + [c.mem.value.pos]
      else if c.execute.None? && c.div.Some? && now >= c.divReady then c.log.commits + [c.div.value.pos]
      else if c.execute.None? && c.mul.Some? && now >= c.mulReady then c.log.commits + [c.mul.value.pos]
      else c.log.commits
  {
    hide BackEnd, FrontEnd, DoFetch0;
    BackEndMovesOne(c, now, e);
    FrontEndMovesOne(BackEnd(c, now, e), now, e);
    FetchKeepsSlots(FrontEnd(BackEnd(c, now, e), now, e), now, e.icReady, e.pc, e.q);
  }

  /** A multiplication in Decode enters its free unit in the tick in which that is due; a division likewise. */
  lemma TickIssues(c: Core, now: nat, e: Env)
    requires c.decode.Some? && !c.decode.value.brMispred && c.mul.None? && c.div.None?
    ensures var d := Update(c, now, e); var x := c.decode.value.inst.ext;
      && ((x == IntMulL || x == IntMulH) && e.dueMul ==> d.mul == c.decode && d.mulReady == now + 4)
      && ((x == IntDiv || x == IntRem) && e.dueDiv ==> d.div == c.decode && d.divReady == now + 34)
  {
    hide FrontEnd, DoFetch0;
    BackEndIssues(c, now, e);
    FrontEndMovesOne(BackEnd(c, now, e), now, e);
    FetchKeepsUnits(FrontEnd(BackEnd(c, now, e), now, e), now, e.icReady, e.pc, e.q);
  }

  lemma BackEndIssues(c: Core, now: nat, e: Env)
    requires c.decode.Some? && !c.decode.value.brMispred && c.mul.None? && c.div.None?
    ensures var d := BackEnd(c, now, e); var x := c.decode.value.inst.ext;
      && ((x == IntMulL || x == IntMulH) && e.dueMul ==> d.mul == c.decode && d.mulReady == now + 4)
      && ((x == IntDiv || x == IntRem) && e.dueDiv ==> d.div == c.decode && d.divReady == now + 34)
  {
    hide Legacy, Flush, H.Repair;
  }
}

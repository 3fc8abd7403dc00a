/** The pipeline as the source has it: an object whose handlers update its slots, queue and flags in place. */
module PipelineClass {
  import opened Common
  import opened Isa
  import opened FetchQueue
  import opened CoreInv
  import C = Core
  import CoreRuns
  import H = History

  type Trans = C.Trans

  class Pipeline {
    const cfg: C.Config
    const queue: RingBuf<Trans>
    var input: Option<Trans>
    var fetch: Option<Trans>
    var decode: Option<Trans>
    var execute: Option<Trans>
    var mul: Option<Trans>
    var div: Option<Trans>
    var mem: Option<Trans>
    var wrongPath: bool
    var wpFlushed: bool
    var resumeTick: nat
    var earlyRedir: nat
    var respIsOrphan: seq<bool>
    var ongoing: int
    var mulReady: nat
    var divReady: nat
    var hist: H.Hist
    var log: C.Log  // what the run has seen so far; the simulator does not keep it

    ghost var entries: seq<Trans>  // the contents of the queue

    ghost predicate Valid()
      reads this, queue, queue.buf
    {
      queue.Valid() && queue.cap == cfg.cap && entries == queue.Contents()
    }

    /** The value of this object as a state of the Core machine. */
    ghost function State(): C.Core
      reads this
    {
      C.Core(cfg, input, entries, fetch, decode, execute, mul, div, mem,
             C.FetchState(wrongPath, wpFlushed, resumeTick, earlyRedir, respIsOrphan),
             ongoing, mulReady, divReady, hist, log)
    }

    constructor (config: C.Config, mode: H.Mode, len: nat)
      requires config.cap > 0
      ensures Valid() && State() == C.Init(config, mode, len)
      ensures fresh(queue) && fresh(queue.buf)
    {
      cfg := config;
      queue := new RingBuf<Trans>(config.cap);
      input, fetch, decode, execute, mul, div, mem := None, None, None, None, None, None, None;
      wrongPath, wpFlushed, resumeTick, earlyRedir, respIsOrphan := false, false, 0, 0, [];
      ongoing, mulReady, divReady := 0, 0, 0;
      hist := H.Init(mode, len);
      log := C.Init(config, mode, len).log;
      entries := [];
    }

    /** feed_inst up to its call of do_fetch_0 */
    method FeedInst(inst: Inst)
      requires Valid() && input.None?
      modifies this
      ensures Valid() && State() == C.FeedInst(old(State()), inst)
    {
      ongoing := ongoing + 1;
      input := Some(C.Trans(inst, |log.trace|, 0, None, NO_PREDICTION, false, false, false, true, 0));
      log := log.(trace := log.trace + [inst]);
    }

    /** feed_inst */
    method Feed(inst: Inst, now: nat, ready: bool, pc: nat, q: Query)
      requires Valid() && input.None? && WellFormed(inst)
      modifies this, queue, queue.buf
      ensures Valid() && State() == C.DoFetch0(C.FeedInst(old(State()), inst), now, ready, pc, q)
      ensures old(CoreRuns.Reachable(State())) ==> CoreRuns.Reachable(State())
    {
      ghost var before := State();
      FeedInst(inst);
      ghost var fed := State();
      DoFetch0(now, ready, pc, q);
      if CoreRuns.Reachable(before) {
        CoreRuns.NoAssertFails(before, C.Event.Feed(inst));
        CoreRuns.NoAssertFails(fed, C.Event.Fetch0(now, ready, pc, q));
      }
    }

    /** recv_mem_resp: id 0 is the iCache, 1 and 2 are the two ports of the load/store unit. */
    method RecvMemResp(id: nat)
      requires Valid() && CoreRuns.Reachable(State()) && id <= 2
      requires if id == 0 then log.outstanding != [] else log.lsuOut
      modifies this, queue.buf
      ensures Valid() && CoreRuns.Reachable(State())
      ensures id == 0 ==>
        && C.IfuRespOk(old(State()))
        && State() == C.HandleIfuResp(old(State())).(log := old(log).(outstanding := old(log).outstanding[1..]))
      ensures id != 0 ==>
        && C.LsuRespOk(old(State()))
        && State() == C.HandleLsuResp(old(State())).(log := old(log).(lsuOut := false))
    {
      CoreRuns.NoAssertFails(State(), if id == 0 then C.Event.IfuResp else C.Event.LsuResp);
      hide C.HandleIfuResp, C.HandleLsuResp, CoreRuns.Reachable;
      if id == 0 {
        HandleIfuResp();
        log := log.(outstanding := log.outstanding[1..]);
      } else {
        HandleLsuResp();
        log := log.(lsuOut := false);
      }
    }

    /** imem->read_req and its entry in the response-ordering FIFO */
    method IssueRead(orphan: bool)
      requires Valid()
      modifies this`respIsOrphan, this`log
      ensures Valid() && State() == C.IssueRead(old(State()), orphan)
    {
      respIsOrphan := respIsOrphan + [orphan];
      log := log.(outstanding := log.outstanding + [log.nextRid], nextRid := log.nextRid + 1);
    }

    /** BranchUnit::predict */
    method Predict(q: Query) returns (pred: BranchResult)
      requires Valid()
      modifies this`hist, this`log
      ensures Valid() && (State(), pred) == C.LookupAt(old(State()), q)
    {
      log := log.(predLog := log.predLog + [hist.ghr]);
      var (h, p) := Lookup(hist, q);
      hist := h;
      pred := p;
    }

    method DoFetch0(now: nat, ready: bool, pc: nat, q: Query)
      requires Valid()
      modifies this, queue, queue.buf
      ensures Valid() && State() == C.DoFetch0(old(State()), now, ready, pc, q)
    {
      if now < resumeTick { return; }
      if !ready { return; }
      if earlyRedir > 0 {
        IssueRead(true);
        earlyRedir := earlyRedir - 1;
        return;
      }
      if wrongPath {
        if wpFlushed {
          wrongPath := false;
          wpFlushed := false;
        } else {
          if queue.Full() { return; }
          WrongPathFetch(pc, q);
          return;
        }
      }
      if queue.Full() { return; }
      if input.None? { return; }
      RealFetch(now, q);
    }

    method WrongPathFetch(pc: nat, q: Query)
      requires Valid() && !queue.Full()
      modifies this, queue, queue.buf
      ensures Valid() && State() == C.WrongPathFetch(old(State()), pc, q)
    {
      var predNo := |log.predLog|;
      var _ := Predict(q);
      var inst := Inst(pc, 0, MemNone, false, false, 0, ExtNone);
      Enqueue(C.Trans(inst, 0, log.nextRid, Some(predNo), NO_PREDICTION, false, true, true, false, 0));
      IssueRead(false);
    }

    /** predict_at_fetch and judge for the input instruction; only branches query the predictor. */
    method Classify(inst: Inst, q: Query) returns (pred: BranchResult, accurate: bool)
      requires Valid()
      modifies this`hist, this`log
      ensures Valid() && |old(log).predLog| <= |log.predLog| && log.nextRid == old(log).nextRid
      ensures (State(), pred, accurate) == C.Classify(old(State()), inst, q)
    {
      pred := NO_PREDICTION;
      hide Lookup, Judge, C.Contribution;
      var predNo := |log.predLog|;
      var mode := hist.mode;
      if inst.isBranch { pred := Predict(q); }
      accurate := Judge(Taken(inst), Target(inst), pred);
      if inst.isBranch {
        var seen := C.Seen(predNo, |log.contrib|, Taken(inst), q.btb != 0, q.ras.Some?);
        log := log.(contrib := log.contrib + C.Contribution(mode, inst, accurate, q), branches := log.branches + [seen]);
      }
    }

    method Enqueue(t: Trans)
      requires Valid() && !queue.Full()
      modifies this`entries, queue, queue.buf
      ensures Valid() && State() == old(State()).(ifq := old(entries) + [t])
    {
      queue.PushBack(t);
      entries := queue.Contents();
    }

    method TakeInput() returns (t: Trans)
      requires Valid() && input.Some?
      modifies this`input
      ensures Valid() && t == old(input).value.(waitMem := true) && State() == old(State()).(input := None)
    {
      t := input.value.(waitMem := true);
      input := None;
    }

    method EnterWrongPath()
      requires Valid()
      modifies this`wrongPath
      ensures Valid() && State() == old(State()).(fs := old(State()).fs.(wrongPath := true))
    {
      wrongPath := true;
    }

    /** The front-end delays a prediction asks for: the TAGE override stall and the two early-redirect reads. */
    method NoteRedirect(pred: BranchResult, accurate: bool, now: nat)
      requires Valid()
      modifies this`resumeTick, this`earlyRedir
      ensures Valid()
      ensures State() == old(State()).(fs := old(State()).fs.(
        resumeTick := if pred.overrode then Max(old(resumeTick), now + 2) else old(resumeTick),
        earlyRedir := if accurate && pred.willRedirect then 2 else old(earlyRedir)))
    {
      if pred.overrode { resumeTick := Max(resumeTick, now + 2); }
      if accurate && pred.willRedirect { earlyRedir := 2; }
    }

    method Launch(t: Trans, accurate: bool, now: nat)
      requires Valid() && !queue.Full()
      modifies this, queue, queue.buf
      ensures Valid() && State() == C.Launch(old(State()), t, accurate, now)
    {
      if !accurate { EnterWrongPath(); }
      IssueRead(false);
      NoteRedirect(t.pred, accurate, now);
      Enqueue(t);
    }

    method RealFetch(now: nat, q: Query)
      requires Valid() && !queue.Full() && input.Some?
      modifies this, queue, queue.buf
      ensures Valid() && State() == C.RealFetch(old(State()), now, q)
    {
      hide C.Classify, C.Launch;
      var t := TakeInput();
      if t.inst.isBranch && cfg.noBpu {
        t := t.(hold := if t.inst.brTaken then 2 else 0);
      }
      var predNo := if t.inst.isBranch then Some(|log.predLog|) else None;
      var pred, accurate := Classify(t.inst, q);
      Launch(t.(pred := pred, predNo := predNo, brMispred := !accurate, rid := log.nextRid), accurate, now);
    }

    method DoFetch1()
      requires Valid() && fetch.None?
      modifies this, queue, queue.buf
      ensures Valid() && State() == C.DoFetch1(old(State()))
    {
      if queue.cnt == 0 { return; }
      var t := queue.At(0);
      if t.waitMem { return; }
      if t.hold > 0 {
        queue.Set(0, t.(hold := t.hold - 1));
        entries := queue.Contents();
        return;
      }
      var x := queue.PopFront();
      assert x == t;
      entries := queue.Contents();
      fetch := Some(x);
    }

    method HandleIfuResp()
      requires Valid() && C.IfuRespOk(State())
      modifies this, queue.buf
      ensures Valid() && State() == C.HandleIfuResp(old(State()))
    {
      var isOrphan := PopOwner();
      if !isOrphan { WakeFirst(); }
    }

    /** The front of the response-ordering FIFO says who owns the response. */
    method PopOwner() returns (isOrphan: bool)
      requires Valid() && respIsOrphan != []
      modifies this`respIsOrphan
      ensures Valid() && isOrphan == old(respIsOrphan)[0]
      ensures State() == old(State()).(fs := old(State()).fs.(respIsOrphan := old(respIsOrphan)[1..]))
    {
      isOrphan := respIsOrphan[0];
      respIsOrphan := respIsOrphan[1..];
    }

    /** The oldest entry that waits for its instruction has it now. */
    method WakeFirst()
      requires Valid() && C.FirstWaiting(entries) < |entries|
      modifies this`entries, queue.buf
      ensures Valid()
      ensures var q := old(entries); var k := C.FirstWaiting(q);
        State() == old(State()).(ifq := q[k := q[k].(waitMem := false)])
    {
      var k := queue.FindIf((t: Trans) => t.waitMem);
      assert entries == queue.Contents();
      FirstIs(entries, k);
      var t := queue.At(k);
      queue.Set(k, t.(waitMem := false));
      entries := queue.Contents();
    }

    method DoDecode(ready: bool)
      requires Valid() && fetch.Some? && decode.None?
      modifies this`fetch, this`decode
      ensures Valid() && State() == C.DoDecode(old(State()), ready)
    {
      var t := fetch.value;
      if t.isWrongPath {
        fetch := None;
        return;
      }
      if !t.inst.ext.ExtNone? {
        if mul.Some? || div.Some? { return; }
      }
      if !ready { return; }
      if t.inst.dst != 0 {
        if C.WritesDst(mul, t.inst.dst) || C.WritesDst(div, t.inst.dst) { return; }
      }
      decode, fetch := fetch, None;
    }

    /** First loop of the flush: every pending response becomes an orphan. */
    method OrphanAll()
      requires Valid()
      modifies this`respIsOrphan
      ensures Valid()
      ensures State() == old(State()).(fs := old(State()).fs.(respIsOrphan := C.AllTrue(old(respIsOrphan))))
    {
      var i := 0;
      while i < |respIsOrphan|
        invariant i <= |respIsOrphan| == |old(respIsOrphan)|
        invariant forall k :: 0 <= k < i ==> respIsOrphan[k]
      {
        if !respIsOrphan[i] { respIsOrphan := respIsOrphan[i := true]; }
        i := i + 1;
      }
    }

    /** Second loop of the flush: queue entries that were counted no longer are. */
    method UncountQueue()
      requires Valid()
      modifies this`ongoing
      ensures Valid() && State() == old(State()).(ongoing := old(ongoing) - C.CountCounted(entries))
    {
      ghost var q := entries;
      var i := 0;
      while i < queue.cnt
        invariant i <= queue.cnt == |q|
        invariant ongoing == old(ongoing) - C.CountCounted(q[..i])
      {
        var t := queue.At(i);
        CountSnoc(q, i);
        if t.counted { ongoing := ongoing - 1; }
        i := i + 1;
      }
      assert q[..i] == q;
    }

    method ClearQueue()
      requires Valid()
      modifies this`entries, queue, queue.buf
      ensures Valid() && State() == old(State()).(ifq := [])
    {
      queue.Clear();
      entries := [];
    }

    /** The younger instruction in Fetch is discarded as well. */
    method DropFetch()
      requires Valid()
      modifies this`fetch, this`ongoing
      ensures Valid() && State() == old(State()).(
        fetch := None,
        ongoing := old(ongoing) - (if old(fetch).Some? && old(fetch).value.counted then 1 else 0))
    {
      if fetch.Some? && fetch.value.counted {
        ongoing := ongoing - 1;
        fetch := None;
      } else if fetch.Some? {
        fetch := None;
      }
    }

    /** The flush shared by do_execute and flush_false_btb_hit */
    method Flush(now: nat)
      requires Valid()
      modifies this, queue, queue.buf
      ensures Valid() && State() == C.Flush(old(State()), now)
    {
      OrphanAll();
      UncountQueue();
      ClearQueue();
      DropFetch();
      Redirect(now);
    }

    method Redirect(now: nat)
      requires Valid()
      modifies this`wpFlushed, this`earlyRedir, this`resumeTick
      ensures Valid()
      ensures State() == old(State()).(fs := old(State()).fs.(
        wpFlushed := true, earlyRedir := 0, resumeTick := now + C.BRANCH_MISS_PENALTY))
    {
      wpFlushed := true;
      earlyRedir := 0;
      resumeTick := now + C.BRANCH_MISS_PENALTY;
    }

    method FlushFalseHit(t: Trans, now: nat)
      requires Valid()
      modifies this, queue, queue.buf
      ensures Valid() && State() == C.FlushFalseHit(old(State()), t, now)
    {
      if t.inst.isBranch { return; }
      if t.pred.target != 0 && t.brMispred { hist := H.Repair(hist, false, t.pred.snap); }
      if !t.brMispred { return; }
      Flush(now);
    }

    method DoExecute(now: nat)
      requires Valid() && decode.Some? && execute.None?
      modifies this, queue, queue.buf
      ensures Valid() && State() == C.DoExecute(old(State()), now)
    {
      var t := decode.value;
      if !t.inst.ext.ExtNone? { return; }
      if t.inst.isBranch {
        if t.brMispred {
          hist := H.Repair(hist, t.inst.brTaken, t.pred.snap);
          Flush(now);
        }
      }
      FlushFalseHit(t, now);
      execute, decode := decode, None;
    }

    method DoMulExt(now: nat)
      requires Valid() && decode.Some? && mul.None?
      modifies this, queue, queue.buf
      ensures Valid() && State() == C.DoMulExt(old(State()), now)
    {
      var t := decode.value;
      if !IsMul(t.inst) { return; }
      FlushFalseHit(t, now);
      mulReady := now + C.MUL_LAT;
      mul, decode := decode, None;
    }

    method DoDivExt(now: nat)
      requires Valid() && decode.Some? && div.None?
      modifies this, queue, queue.buf
      ensures Valid() && State() == C.DoDivExt(old(State()), now)
    {
      var t := decode.value;
      if !IsDiv(t.inst) { return; }
      FlushFalseHit(t, now);
      divReady := now + C.DIV_LAT;
      div, decode := decode, None;
    }

    method DoMemory(portReady: bool)
      requires Valid() && execute.Some? && mem.None?
      modifies this`execute, this`mem, this`log
      ensures Valid() && State() == C.DoMemory(old(State()), portReady)
    {
      var t := execute.value;
      if t.waitMem {
        if C.Legacy(cfg, t.inst) {
          mem, execute := Some(t.(waitMem := false)), None;
        }
        return;
      }
      if C.Legacy(cfg, t.inst) {
        execute := Some(t.(waitMem := true));
        return;
      }
      if !t.inst.memOp.MemNone? {
        if portReady {
          execute := Some(t.(waitMem := true));
          log := log.(lsuOut := true);
        }
        return;
      }
      mem, execute := execute, None;
    }

    method HandleLsuResp()
      requires Valid() && C.LsuRespOk(State())
      modifies this`execute, this`mem
      ensures Valid() && State() == C.HandleLsuResp(old(State()))
    {
      mem, execute := Some(execute.value.(waitMem := false)), None;
    }

    method DoWriteback(now: nat)
      requires Valid()
      modifies this`mem, this`mul, this`div, this`ongoing, this`log
      ensures Valid() && State() == C.DoWriteback(old(State()), now)
    {
      var pendingAlu := execute.Some?;
      if mem.Some? {
        log := log.(commits := log.commits + [mem.value.pos]);
        mem := None;
      } else if !pendingAlu && div.Some? && now >= divReady {
        log := log.(commits := log.commits + [div.value.pos]);
        div := None;
      } else if !pendingAlu && mul.Some? && now >= mulReady {
        log := log.(commits := log.commits + [mul.value.pos]);
        mul := None;
      } else {
        return;
      }
      ongoing := ongoing - 1;
    }

    /** update_impl: stages in reverse order, then one fetch. Reachable states stay reachable. */
    method Update(now: nat, e: C.Env)
      requires Valid()
      modifies this, queue, queue.buf
      ensures Valid() && State() == C.Update(old(State()), now, e)
      ensures old(CoreRuns.Reachable(State())) ==> CoreRuns.Reachable(State())
    {
      ghost var before := State();
      UpdateBack(now, e);
      UpdateFront(now, e);
      DoFetch0(now, e.icReady, e.pc, e.q);
      if CoreRuns.Reachable(before) { CoreRuns.TickReachable(before, now, e); }
    }

    method UpdateBack(now: nat, e: C.Env)
      requires Valid()
      modifies this, queue, queue.buf
      ensures Valid() && State() == C.BackEnd(old(State()), now, e)
    {
      hide C.DoWriteback, C.DoMemory, C.DoDivExt, C.DoMulExt, C.WbValid;
      UpdateWriteback(now, e);
      UpdateMemory(e);
      UpdateUnits(now, e);
    }

    method UpdateWriteback(now: nat, e: C.Env)
      requires Valid()
      modifies this`mem, this`mul, this`div, this`ongoing, this`log
      ensures Valid()
      ensures var s := old(State()); State() == if e.dueWb && C.WbValid(s, now) then C.DoWriteback(s, now) else s
    {
      hide C.DoWriteback;
      var valid := mem.Some? || (mul.Some? && now >= mulReady) || (div.Some? && now >= divReady);
      if e.dueWb && valid { DoWriteback(now); }
    }

    method UpdateMemory(e: C.Env)
      requires Valid()
      modifies this, queue, queue.buf
      ensures Valid()
      ensures var s := old(State()); State() == if e.dueMem && s.mem.None? && s.execute.Some? then C.DoMemory(s, e.lsuReady) else s
    {
      hide C.DoMemory;
      if e.dueMem && mem.None? && execute.Some? { DoMemory(e.lsuReady); }
    }

    method UpdateUnits(now: nat, e: C.Env)
      requires Valid()
      modifies this, queue, queue.buf
      ensures Valid()
      ensures var s := old(State());
        var s1 := if e.dueDiv && s.div.None? && s.decode.Some? then C.DoDivExt(s, now) else s;
        State() == if e.dueMul && s1.mul.None? && s1.decode.Some? then C.DoMulExt(s1, now) else s1
    {
      hide C.DoDivExt, C.DoMulExt;
      if e.dueDiv && div.None? && decode.Some? { DoDivExt(now); }
      if e.dueMul && mul.None? && decode.Some? { DoMulExt(now); }
    }

    method UpdateFront(now: nat, e: C.Env)
      requires Valid()
      modifies this, queue, queue.buf
      ensures Valid() && State() == C.FrontEnd(old(State()), now, e)
    {
      hide C.DoExecute, C.DoDecode, C.DoFetch1;
      if e.dueEx && execute.None? && decode.Some? { DoExecute(now); }
      if e.dueId && decode.None? && fetch.Some? { DoDecode(e.operands); }
      if e.dueIf && fetch.None? { DoFetch1(); }
    }
  }

  lemma FirstIs(q: seq<Trans>, k: nat)
    requires k <= |q| && (forall i :: 0 <= i < k ==> !q[i].waitMem) && (k < |q| ==> q[k].waitMem)
    ensures C.FirstWaiting(q) == k
  {
  }

  lemma CountSnoc(q: seq<Trans>, i: nat)
    requires i < |q|
    ensures C.CountCounted(q[..i + 1]) == C.CountCounted(q[..i]) + (if q[i].counted then 1 else 0)
  {
    if i > 0 {
      assert q[..i + 1][1..] == q[1..][..i] && q[..i][1..] == q[1..][..i - 1];
      CountSnoc(q[1..], i - 1);
    }
  }
}

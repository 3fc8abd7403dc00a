/**
 The pipeline on top of its memory system, driven by one clock: reads go out where the pipeline issues them,
 and each answer of a cache or port runs the response handler of the pipeline in the same step.
 */
module WholeSystem {
  import opened Common
  import Isa
  import C = Core
  import CI = CoreInv
  import CR = CoreRuns
  import CoreSteps
  import H = History
  import M = MemorySystem
  import MI = MemorySystemInv
  import MR = MemoryRuns
  import A = Arbiter
  import S = Sdram
  import P = PipeCache
  import I = PipeCacheInv
  import PR = PipeCacheRuns

  datatype Whole = Whole(core: C.Core, sys: M.Sys)

  datatype Event =
    | Stage(stage: C.Event)             // a stage that does not touch memory, or the feed of one instruction
    | Fetch(pc: nat, q: Isa.Query)      // do_fetch_0; pc is the address if no real instruction is fetched
    | Memory                            // do_memory
    | Hardware(tick: M.Event)           // caches, arbiter, flush, statistics reset, clock

  /** The stages other than the two that send requests. */
  predicate Internal(e: C.Event, now: nat) {
    match e
    case Feed(inst) => inst.memAddr < 0x1_0000_0000
    case Execute(at) => at == now
    case Mul(at) => at == now
    case Div(at) => at == now
    case Writeback(at) => at == now
    case Fetch1 => true
    case Decode(_) => true
    case _ => false
  }

  predicate Possible(w: Whole, e: Event) {
    match e
    case Stage(s) => Internal(s, w.sys.now) && C.Possible(w.core, s)
    case Fetch(_, _) => true
    case Memory => C.Possible(w.core, C.Event.Memory(true))
    case Hardware(s) => !s.Fetch? && !s.Access? && M.Possible(w.sys, s)
  }

  // ---------------------------------------------------------------- requests of the pipeline

  /** do_fetch_0 with the readiness of the instruction cache. */
  function FetchEvent(w: Whole, pc: nat, q: Isa.Query): C.Event {
    C.Event.Fetch0(w.sys.now, P.Ready(w.sys.ic), pc, q)
  }

  function AfterFetch(w: Whole, pc: nat, q: Isa.Query): C.Core {
    C.DoFetch0(w.core, w.sys.now, P.Ready(w.sys.ic), pc, q)
  }

  predicate Reads(w: Whole, pc: nat, q: Isa.Query) {
    |AfterFetch(w, pc, q).log.outstanding| > |w.core.log.outstanding|
  }

  /** The read of a real instruction goes to its own address. Reads are numbered by the pipeline. */
  function ReadOf(w: Whole, pc: nat, q: Isa.Query): M.Event {
    var fromTrace := w.core.input.Some? && AfterFetch(w, pc, q).input.None?;
    M.Event.Fetch(if fromTrace then w.core.input.value.inst.pc else pc, w.core.log.nextRid)
  }

  /** is_ready of the port that a load or store goes to. */
  predicate PortReady(sys: M.Sys, addr: nat, isWrite: bool) {
    if !Isa.Cacheable(addr) then !(if isWrite then sys.bypass.wBusy else sys.bypass.rBusy)
    else
      match sys.dc
      case Cached(d) => P.Ready(d)
      case Uncached(p) => !(if isWrite then p.wBusy else p.rBusy)
  }

  function Inst(w: Whole): Isa.Inst
    requires w.core.execute.Some?
  {
    w.core.execute.value.inst
  }

  function MemoryEvent(w: Whole): C.Event
    requires w.core.execute.Some?
  {
    C.Event.Memory(PortReady(w.sys, Inst(w).memAddr, Inst(w).memOp.MemStore?))
  }

  function AccessOf(w: Whole): M.Event
    requires w.core.execute.Some?
  {
    M.Event.Access(Inst(w).memAddr, Inst(w).memOp.MemStore?, 0)
  }

  predicate Accesses(w: Whole)
    requires w.core.execute.Some? && w.core.mem.None?
  {
    !w.core.log.lsuOut && C.DoMemory(w.core, MemoryEvent(w).portReady).log.lsuOut
  }

  // ---------------------------------------------------------------- answers to the pipeline

  /** Loads and stores that the data side has not answered. */
  function Owed(sys: M.Sys): int {
    (if sys.bypass.rBusy then 1 else 0) + (if sys.bypass.wBusy then 1 else 0)
    + match sys.dc
      case Cached(d) => |d.log.accepted| - |d.log.answered|
      case Uncached(p) => (if p.rBusy then 1 else 0) + (if p.wBusy then 1 else 0)
  }

  predicate FetchAnswered(s: M.Sys, s': M.Sys) {
    |s'.ic.log.answered| > |s.ic.log.answered|
  }

  predicate LsuAnswered(s: M.Sys, s': M.Sys) {
    Owed(s') < Owed(s)
  }

  /** The response handlers that a step of the memory system runs. */
  predicate AnswersOk(c: C.Core, s: M.Sys, s': M.Sys) {
    && (FetchAnswered(s, s') ==> C.Possible(c, C.Event.IfuResp) && C.IfuRespOk(c))
    && (LsuAnswered(s, s') ==> C.Possible(c, C.Event.LsuResp) && C.LsuRespOk(c))
  }

  function Answer(c: C.Core, s: M.Sys, s': M.Sys): C.Core
    requires AnswersOk(c, s, s')
  {
    if FetchAnswered(s, s') then C.Step(c, C.Event.IfuResp)
    else if LsuAnswered(s, s') then C.Step(c, C.Event.LsuResp)
    else c
  }

  // ---------------------------------------------------------------- steps

  /** Every assert of the pipeline, the caches, the ports and the arbiter that the event runs into. */
  predicate Safe(w: Whole, e: Event)
    requires Possible(w, e)
  {
    match e
    case Stage(s) => C.AssertsHold(w.core, s)
    case Fetch(pc, q) => Reads(w, pc, q) ==> M.Possible(w.sys, ReadOf(w, pc, q)) && M.Safe(w.sys, ReadOf(w, pc, q))
    case Memory => Accesses(w) ==> M.Possible(w.sys, AccessOf(w)) && M.Safe(w.sys, AccessOf(w))
    case Hardware(s) => M.Safe(w.sys, s) && AnswersOk(w.core, w.sys, M.Step(w.sys, s))
  }

  function Step(w: Whole, e: Event): Whole
    requires Possible(w, e) && Safe(w, e)
  {
    match e
    case Stage(s) => w.(core := C.Step(w.core, s))
    case Fetch(pc, q) =>
      Whole(AfterFetch(w, pc, q), if Reads(w, pc, q) then M.Step(w.sys, ReadOf(w, pc, q)) else w.sys)
    case Memory =>
      Whole(C.Step(w.core, MemoryEvent(w)), if Accesses(w) then M.Step(w.sys, AccessOf(w)) else w.sys)
    case Hardware(s) =>
      var s' := M.Step(w.sys, s);
      Whole(Answer(w.core, w.sys, s'), s')
  }

  /** The trace holds 32-bit addresses. */
  predicate TraceOk(trace: seq<Isa.Inst>) {
    forall i :: 0 <= i < |trace| ==> trace[i].memAddr < 0x1_0000_0000
  }

  /**
   The halves agree: the reads that the pipeline waits for are the requests in the instruction cache, in order,
   and it waits for a load or store exactly while the data side owes one.
   */
  ghost predicate WholeInv(w: Whole) {
    && CI.Inv(w.core) && MI.SysInv(w.sys)
    && w.core.log.outstanding == I.InPipe(w.sys.ic.pipe)
    && Owed(w.sys) == (if w.core.log.lsuOut then 1 else 0)
    && TraceOk(w.core.log.trace)
  }

  // ---------------------------------------------------------------- the pipeline's side

  /** One call of do_fetch_0 issues at most one read, and none to a cache that is not ready. */
  lemma FetchIssues(c: C.Core, now: nat, ready: bool, pc: nat, q: Isa.Query)
    ensures var c' := C.DoFetch0(c, now, ready, pc, q);
      && (c'.log.outstanding == c.log.outstanding || (ready && c'.log.outstanding == c.log.outstanding + [c.log.nextRid]))
      && c'.log.lsuOut == c.log.lsuOut && c'.log.trace == c.log.trace
  {
    hide Isa.Lookup, Isa.Judge, H.LastBits;
  }

  lemma StageKeeps(c: C.Core, e: C.Event, now: nat)
    requires C.Possible(c, e) && C.AssertsHold(c, e) && Internal(e, now)
    ensures var c' := C.Step(c, e);
      && c'.log.outstanding == c.log.outstanding && c'.log.lsuOut == c.log.lsuOut
      && c'.log.trace == c.log.trace + (if e.Feed? then [e.inst] else [])
  {
    hide C.Flush, H.Repair, C.Legacy;
    FlushKeeps(c, now);
  }

  lemma FlushKeeps(c: C.Core, now: nat)
    ensures forall d: C.Core :: C.Flush(d, now).log == d.log
  {
  }

  lemma ExecuteIsFed(c: C.Core)
    requires CI.Inv(c) && c.execute.Some?
    ensures c.execute.value.pos < |c.log.trace| && c.execute.value.inst == c.log.trace[c.execute.value.pos]
  {
    hide CI.R.Inv, CI.FrontOk, CI.PathOk, CI.OrphansOk, CI.HistoryOk, CI.BranchesOk, CI.LsuOk, CI.Scoreboard, CI.CountOk, CI.Abs, CI.Front;
  }

  lemma MemoryKeeps(c: C.Core, ready: bool)
    requires c.execute.Some? && c.mem.None?
    ensures var c' := C.DoMemory(c, ready);
      && c'.log.outstanding == c.log.outstanding && c'.log.trace == c.log.trace
      && (c.log.lsuOut ==> c'.log.lsuOut)
      && (c'.log.lsuOut && !c.log.lsuOut ==> ready)
  {
  }

  // ---------------------------------------------------------------- the memory's side

  /** No load or store owed is the same as an idle data side. */
  lemma OwedIdle(s: M.Sys)
    requires MI.SysInv(s)
    ensures Owed(s) >= 0 && (Owed(s) == 0 <==> M.LsuIdle(s))
  {
    hide MI.TimingOk, MI.ChannelsOk, MI.Linked, MI.AcceptedOk;
    if s.dc.Cached? { OwedCount(s.dc.cache); }
  }

  lemma OwedCount(c: P.State)
    requires I.Inv(c)
    ensures |c.log.answered| <= |c.log.accepted|
  {
    hide I.EntryOk, I.FlagsOk, I.CleanOk, I.InPipe;
  }

  /** An update answers at most the request at the end of the pipe. */
  lemma UpdateAnswers(c: P.State, now: nat)
    requires P.UpdateOk(c)
    ensures var c' := P.Update(c, now).state;
      c'.log.answered == c.log.answered || (P.Back(c).Some? && c'.log.answered == c.log.answered + [P.Back(c).value.uid])
  {
    hide P.LookUp, P.Advance, P.MissStep;
    if P.Back(c).None? {
      PR.AdvanceAnswers(c, now);
    } else {
      P.LookUpShape(c, now);
      LookUpAnswers(c, now);
      var c1 := if P.Back(c).value.way.None? then P.LookUp(c, now) else c;
      if P.LineOf(c1, P.Back(c1).value).valid {
        P.HandleHitShape(c1);
        PR.AdvanceAnswers(P.HandleHit(c1), now);
      } else {
        MissAnswers(c1.(isReplay := false));
      }
    }
  }

  lemma LookUpAnswers(c: P.State, now: nat)
    requires P.Shape(c) && P.Back(c).Some?
    ensures var c' := P.LookUp(c, now);
      c'.log.answered == c.log.answered && P.Back(c').Some? && P.Back(c').value.uid == P.Back(c).value.uid
  {
  }

  lemma MissAnswers(c: P.State)
    requires P.Shape(c) && P.Back(c).Some?
    ensures P.MissStep(c).state.log.answered == c.log.answered
  {
  }

  /** A response to a port ends its access; one to a cache answers nothing yet. */
  lemma ReceiveOwed(s: M.Sys, h: nat, isRead: bool)
    requires M.CanReceive(s, h, isRead)
    ensures var s' := M.Receive(s, h, isRead);
      && (Owed(s') == Owed(s) || Owed(s') == Owed(s) - 1)
      && s'.ic.log == s.ic.log && s'.ic.pipe == s.ic.pipe
  {
    hide P.ReadRespOk, P.ReadResp;
    if h == 0 {
      ReadRespLog(s.ic, s.now);
    } else if h == 1 && s.dc.Cached? && isRead {
      ReadRespLog(s.dc.cache, s.now);
    }
  }

  lemma ReadRespLog(c: P.State, now: nat)
    requires P.ReadRespOk(c)
    ensures P.ReadResp(c, now).log == c.log && P.ReadResp(c, now).pipe == c.pipe
  {
  }

  /** What a memory event other than a request may answer. */
  predicate Answers(s: M.Sys, s': M.Sys) {
    && s'.ic.log.accepted == s.ic.log.accepted
    && (s'.ic.log.answered == s.ic.log.answered
        || (|s'.ic.log.answered| == |s.ic.log.answered| + 1 && s.ic.log.answered <= s'.ic.log.answered && Owed(s') == Owed(s)))
    && (Owed(s') == Owed(s) || Owed(s') == Owed(s) - 1)
  }

  lemma ReadHalfAnswers(s: M.Sys)
    requires s.mem.sdram.ratio > 0 && M.ReadHalfOk(s)
    ensures Answers(s, M.ReadHalf(s))
  {
    hide A.Pick, A.Take, M.CanReceive, M.Receive;
    if A.Due(s.rd, s.now) {
      var s0 := s.(rd := A.Take(s.rd, s.now).0);
      MI.ReceiveFrame(s, s0, s.rd.serving.value, true);
      ReceiveOwed(s0, s.rd.serving.value, true);
    }
  }

  lemma WriteHalfAnswers(s: M.Sys)
    requires s.mem.sdram.ratio > 0 && M.WriteHalfOk(s)
    ensures Answers(s, M.WriteHalf(s).(memDone := true))
  {
    hide A.Pick, A.Take, M.CanReceive, M.Receive;
    if A.Due(s.wr, s.now) {
      var s0 := s.(wr := A.Take(s.wr, s.now).0);
      MI.ReceiveFrame(s, s0, s.wr.serving.value, false);
      ReceiveOwed(s0, s.wr.serving.value, false);
    }
  }

  lemma TickAnswers(s: M.Sys, e: M.Event)
    requires M.Possible(s, e) && M.Safe(s, e) && (e.IcTick? || e.DcTick?)
    ensures Answers(s, M.Step(s, e))
  {
    hide P.Update, P.UpdateOk, P.Awake, M.Send;
    var c := if e.IcTick? then s.ic else s.dc.cache;
    var host := if e.IcTick? then 0 else 1;
    UpdateAnswers(c, s.now);
    MI.UpdateKept(c, s.now);
    MI.SendFrame(s, host, P.Update(c, s.now).sent);
  }

  lemma HardwareAnswers(s: M.Sys, e: M.Event)
    requires M.Possible(s, e) && M.Safe(s, e) && !e.Fetch? && !e.Access?
    ensures Answers(s, M.Step(s, e))
  {
    hide P.Update, P.UpdateOk, P.Awake, M.Send, M.ReadHalf, M.WriteHalf, M.ReadHalfOk, M.WriteHalfOk;
    match e {
      case MemRead => ReadHalfAnswers(s);
      case MemWrite => WriteHalfAnswers(s);
      case IcTick => TickAnswers(s, e);
      case DcTick => TickAnswers(s, e);
      case _ =>
    }
  }

  /** What the instruction cache answers leaves the front of its pipe of requests. */
  lemma PipeAfter(c: P.State, c': P.State)
    requires I.Inv(c) && I.Inv(c') && c'.log.accepted == c.log.accepted && c.log.answered <= c'.log.answered
    ensures |c.log.answered| + |I.InPipe(c.pipe)| >= |c'.log.answered|
    ensures I.InPipe(c'.pipe) == I.InPipe(c.pipe)[|c'.log.answered| - |c.log.answered|..]
  {
    hide I.EntryOk, I.FlagsOk, I.CleanOk, I.InPipe;
    var k := |c'.log.answered| - |c.log.answered|;
    var all := c.log.accepted;
    assert all[|c'.log.answered|..] == I.InPipe(c'.pipe);
    assert all[|c.log.answered|..] == I.InPipe(c.pipe);
    assert all[|c.log.answered|..][k..] == all[|c'.log.answered|..];
  }

  // ---------------------------------------------------------------- steps keep the agreement

  lemma StageInv(w: Whole, e: Event)
    requires WholeInv(w) && e.Stage? && Possible(w, e)
    ensures Safe(w, e) && WholeInv(Step(w, e))
  {
    hide CI.Inv, MI.SysInv, I.InPipe, Owed, C.Step, C.Possible, C.AssertsHold;
    CR.StepInv(w.core, e.stage);
    StageKeeps(w.core, e.stage, w.sys.now);
  }

  lemma FetchInv(w: Whole, pc: nat, q: Isa.Query)
    requires WholeInv(w)
    ensures Safe(w, Event.Fetch(pc, q)) && WholeInv(Step(w, Event.Fetch(pc, q)))
  {
    hide CI.Inv, MI.SysInv, I.InPipe, C.DoFetch0, P.Ready, M.Safe, P.Request;
    CR.StepInv(w.core, FetchEvent(w, pc, q));
    FetchIssues(w.core, w.sys.now, P.Ready(w.sys.ic), pc, q);
    if Reads(w, pc, q) {
      MI.StepInv(w.sys, ReadOf(w, pc, q));
      ReadPipe(w.sys, ReadOf(w, pc, q));
    }
  }

  lemma ReadPipe(s: M.Sys, e: M.Event)
    requires e.Fetch? && M.Possible(s, e) && M.Safe(s, e)
    ensures var s' := M.Step(s, e); I.InPipe(s'.ic.pipe) == I.InPipe(s.ic.pipe) + [e.uid] && Owed(s') == Owed(s)
  {
    hide I.InPipe, P.Ready;
    I.InPipeFront(s.ic.pipe, P.Entry(e.pc, false, e.uid, None));
  }

  lemma MemoryInv(w: Whole)
    requires WholeInv(w) && Possible(w, Event.Memory)
    ensures Safe(w, Event.Memory) && WholeInv(Step(w, Event.Memory))
  {
    hide CI.Inv, MI.SysInv, I.InPipe, C.DoMemory, P.Ready, M.Safe, M.LsuAccess, Isa.Cacheable;
    CR.StepInv(w.core, MemoryEvent(w));
    MemoryKeeps(w.core, MemoryEvent(w).portReady);
    ExecuteIsFed(w.core);
    OwedIdle(w.sys);
    if Accesses(w) {
      AccessPossible(w);
      MI.StepInv(w.sys, AccessOf(w));
      AccessOwed(w.sys, AccessOf(w));
    }
  }

  lemma AccessPossible(w: Whole)
    requires w.core.execute.Some? && M.LsuIdle(w.sys) && Inst(w).memAddr < 0x1_0000_0000 && MemoryEvent(w).portReady
    ensures M.Possible(w.sys, AccessOf(w))
  {
    hide P.Ready, Isa.Cacheable;
  }

  lemma AccessOwed(s: M.Sys, e: M.Event)
    requires e.Access? && M.Possible(s, e) && M.Safe(s, e)
    ensures var s' := M.Step(s, e); Owed(s') == Owed(s) + 1 && s'.ic == s.ic
  {
    hide P.Ready, A.Accept, Isa.Cacheable;
  }

  lemma HardwareInv(w: Whole, e: M.Event)
    requires WholeInv(w) && Possible(w, Event.Hardware(e))
    ensures Safe(w, Event.Hardware(e)) && WholeInv(Step(w, Event.Hardware(e)))
  {
    hide CI.Inv, MI.SysInv, I.InPipe, Owed, M.Step, M.Safe, C.HandleIfuResp, C.HandleLsuResp, C.IfuRespOk, C.LsuRespOk;
    MI.StepInv(w.sys, e);
    HardwareAnswers(w.sys, e);
    var s' := M.Step(w.sys, e);
    CacheInv(w.sys);
    CacheInv(s');
    PipeAfter(w.sys.ic, s'.ic);
    OwedNat(s');
    if FetchAnswered(w.sys, s') {
      CR.StepInv(w.core, C.Event.IfuResp);
      RespKeeps(w.core);
    } else if LsuAnswered(w.sys, s') {
      CR.StepInv(w.core, C.Event.LsuResp);
      LsuRespKeeps(w.core);
    }
  }

  lemma CacheInv(s: M.Sys)
    requires MI.SysInv(s)
    ensures I.Inv(s.ic)
  {
  }

  lemma OwedNat(s: M.Sys)
    requires MI.SysInv(s)
    ensures Owed(s) >= 0
  {
    hide MI.SysInv, Owed;
    OwedIdle(s);
  }

  lemma RespKeeps(c: C.Core)
    requires C.Possible(c, C.Event.IfuResp) && C.AssertsHold(c, C.Event.IfuResp)
    ensures var c' := C.Step(c, C.Event.IfuResp);
      c'.log.outstanding == c.log.outstanding[1..] && c'.log.lsuOut == c.log.lsuOut && c'.log.trace == c.log.trace
  {
  }

  lemma LsuRespKeeps(c: C.Core)
    requires C.Possible(c, C.Event.LsuResp) && C.AssertsHold(c, C.Event.LsuResp)
    ensures var c' := C.Step(c, C.Event.LsuResp);
      c'.log.outstanding == c.log.outstanding && !c'.log.lsuOut && c'.log.trace == c.log.trace
  {
  }

  lemma StepInv(w: Whole, e: Event)
    requires WholeInv(w) && Possible(w, e)
    ensures Safe(w, e) && WholeInv(Step(w, e))
  {
    hide WholeInv, Safe, Step, C.Possible, M.Possible;
    match e {
      case Stage(_) => StageInv(w, e);
      case Fetch(pc, q) => FetchInv(w, pc, q);
      case Memory => MemoryInv(w);
      case Hardware(t) => HardwareInv(w, t);
    }
  }

  // ---------------------------------------------------------------- runs

  function Start(cfg: C.Config, mode: H.Mode, len: nat, g: M.Config): Whole
    requires M.GoodConfig(g)
  {
    Whole(C.Init(cfg, mode, len), M.Init(g))
  }

  function Run(w: Whole, es: seq<Event>): Option<Whole> {
    if es == [] then Some(w)
    else
      match Run(w, es[..|es| - 1])
      case None => None
      case Some(v) =>
        var e := es[|es| - 1];
        if Possible(v, e) && Safe(v, e) then Some(Step(v, e)) else None
  }

  ghost predicate Reachable(w: Whole) {
    exists cfg, mode, len, g, es ::
      CI.RingFits(cfg, mode) && M.GoodConfig(g) && Run(Start(cfg, mode, len, g), es) == Some(w)
  }

  lemma StartInv(cfg: C.Config, mode: H.Mode, len: nat, g: M.Config)
    requires CI.RingFits(cfg, mode) && M.GoodConfig(g)
    ensures WholeInv(Start(cfg, mode, len, g))
  {
    hide CI.Inv, MI.SysInv;
    CI.InitInv(cfg, mode, len);
    MI.InitInv(g);
    I.InPipeEmpty(M.Init(g).ic.pipe);
  }

  lemma {:induction false} RunInv(cfg: C.Config, mode: H.Mode, len: nat, g: M.Config, es: seq<Event>)
    requires CI.RingFits(cfg, mode) && M.GoodConfig(g)
    ensures var r := Run(Start(cfg, mode, len, g), es); r.Some? ==> WholeInv(r.value)
  {
    hide WholeInv, Step, Possible, Safe, Start;
    if es == [] {
      StartInv(cfg, mode, len, g);
    } else {
      var n := |es| - 1;
      RunInv(cfg, mode, len, g, es[..n]);
      var v := Run(Start(cfg, mode, len, g), es[..n]);
      if v.Some? && Possible(v.value, es[n]) { StepInv(v.value, es[n]); }
    }
  }

  lemma ReachableInv(w: Whole)
    requires Reachable(w)
    ensures WholeInv(w)
  {
    hide WholeInv, Run, Start, CI.RingFits, M.GoodConfig;
    var cfg, mode, len, g, es :|
      CI.RingFits(cfg, mode) && M.GoodConfig(g) && Run(Start(cfg, mode, len, g), es) == Some(w);
    RunInv(cfg, mode, len, g, es);
  }

  /** Each half moves by events of its own machine. */
  lemma StepHalves(w: Whole, e: Event)
    requires CR.Reachable(w.core) && MR.Reachable(w.sys) && Possible(w, e) && Safe(w, e)
    ensures CR.Reachable(Step(w, e).core) && MR.Reachable(Step(w, e).sys)
  {
    hide CR.Reachable, MR.Reachable, M.Step, M.Safe, M.Possible, C.DoFetch0, C.DoMemory, C.HandleIfuResp, C.HandleLsuResp, C.IfuRespOk, C.LsuRespOk;
    match e {
      case Stage(s) => CR.NoAssertFails(w.core, s);
      case Fetch(pc, q) =>
        CR.NoAssertFails(w.core, FetchEvent(w, pc, q));
        if Reads(w, pc, q) { MR.StepReachable(w.sys, ReadOf(w, pc, q)); }
      case Memory =>
        CR.NoAssertFails(w.core, MemoryEvent(w));
        if Accesses(w) { MR.StepReachable(w.sys, AccessOf(w)); }
      case Hardware(s) =>
        MR.StepReachable(w.sys, s);
        if FetchAnswered(w.sys, M.Step(w.sys, s)) { CR.NoAssertFails(w.core, C.Event.IfuResp); }
        else if LsuAnswered(w.sys, M.Step(w.sys, s)) { CR.NoAssertFails(w.core, C.Event.LsuResp); }
    }
  }

  lemma {:induction false} RunHalves(cfg: C.Config, mode: H.Mode, len: nat, g: M.Config, es: seq<Event>)
    requires CI.RingFits(cfg, mode) && M.GoodConfig(g)
    ensures var r := Run(Start(cfg, mode, len, g), es); r.Some? ==> CR.Reachable(r.value.core) && MR.Reachable(r.value.sys)
  {
    hide CR.Reachable, MR.Reachable, Step, Possible, Safe;
    if es == [] {
      CR.InitReachable(cfg, mode, len);
      MR.InitReachable(g);
    } else {
      var n := |es| - 1;
      RunHalves(cfg, mode, len, g, es[..n]);
      var v := Run(Start(cfg, mode, len, g), es[..n]);
      if v.Some? && Possible(v.value, es[n]) && Safe(v.value, es[n]) { StepHalves(v.value, es[n]); }
    }
  }

  // ---------------------------------------------------------------- main results

  /** In a run of the whole, the pipeline and the memory system are in states of their own runs, so all their results hold. */
  lemma HalvesReachable(w: Whole)
    requires Reachable(w)
    ensures CR.Reachable(w.core) && MR.Reachable(w.sys)
  {
    hide CR.Reachable, MR.Reachable, Run, Start, CI.RingFits, M.GoodConfig;
    var cfg, mode, len, g, es :|
      CI.RingFits(cfg, mode) && M.GoodConfig(g) && Run(Start(cfg, mode, len, g), es) == Some(w);
    RunHalves(cfg, mode, len, g, es);
  }

  /** No assert of pipeline, caches, ports or arbiter fails, whatever order their events come in. */
  lemma NoAssertFails(w: Whole, e: Event)
    requires Reachable(w) && Possible(w, e)
    ensures Safe(w, e)
  {
    hide WholeInv, Safe, Possible;
    ReachableInv(w);
    StepInv(w, e);
  }

  /** The reads that the pipeline waits for are those in the instruction cache, and a load or store is owed to it exactly while the data side is not idle. */
  lemma HalvesAgree(w: Whole)
    requires Reachable(w)
    ensures w.core.log.outstanding == I.InPipe(w.sys.ic.pipe)
    ensures w.core.log.lsuOut <==> !M.LsuIdle(w.sys)
  {
    hide CI.Inv, MI.SysInv, I.InPipe, Owed, M.LsuIdle;
    ReachableInv(w);
    OwedIdle(w.sys);
  }

  /** The read that the cache answers is the oldest the pipeline waits for; if it is no orphan, its own queue entry is woken. */
  lemma AnswerFindsItsOwner(w: Whole)
    requires Reachable(w) && Possible(w, Event.Hardware(M.Event.IcTick))
    ensures Safe(w, Event.Hardware(M.Event.IcTick))
    ensures var s' := M.Step(w.sys, M.Event.IcTick);
      FetchAnswered(w.sys, s') ==>
        && w.core.log.outstanding != [] && w.core.fs.respIsOrphan != []
        && s'.ic.log.answered == w.sys.ic.log.answered + [w.core.log.outstanding[0]]
        && (!w.core.fs.respIsOrphan[0] ==>
              var k := C.FirstWaiting(w.core.ifq); k < |w.core.ifq| && w.core.ifq[k].rid == w.core.log.outstanding[0])
  {
    hide CI.Inv, MI.SysInv, I.InPipe, Owed, M.Step, M.Safe, C.HandleIfuResp;
    ReachableInv(w);
    StepInv(w, Event.Hardware(M.Event.IcTick));
    var s' := M.Step(w.sys, M.Event.IcTick);
    MI.StepInv(w.sys, M.Event.IcTick);
    HardwareAnswers(w.sys, M.Event.IcTick);
    CacheInv(w.sys);
    CacheInv(s');
    PipeAfter(w.sys.ic, s'.ic);
    if FetchAnswered(w.sys, s') {
      AnsweredIsFirst(w.sys.ic, s'.ic);
      OwnerWaits(w.core);
    }
  }

  lemma AnsweredIsFirst(c: P.State, c': P.State)
    requires I.Inv(c) && I.Inv(c') && c'.log.accepted == c.log.accepted
    requires c.log.answered <= c'.log.answered && |c'.log.answered| == |c.log.answered| + 1
    ensures I.InPipe(c.pipe) != [] && c'.log.answered == c.log.answered + [I.InPipe(c.pipe)[0]]
  {
    hide I.EntryOk, I.FlagsOk, I.CleanOk, I.InPipe;
    var n := |c.log.answered|;
    assert c.log.accepted[n] == c'.log.answered[n];
  }

  lemma OwnerWaits(c: C.Core)
    requires CI.Inv(c) && c.log.outstanding != []
    ensures c.fs.respIsOrphan != []
    ensures !c.fs.respIsOrphan[0] ==>
      C.FirstWaiting(c.ifq) < |c.ifq| && c.ifq[C.FirstWaiting(c.ifq)].rid == c.log.outstanding[0]
  {
    hide CI.Inv;
    CoreSteps.IfuRespInv(c);
  }
}

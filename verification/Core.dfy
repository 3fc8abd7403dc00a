/** Trace records and branch predictions as the pipeline sees them. */
module Isa {
  import opened Common
  import opened History

  datatype MemOp = MemNone | MemLoad | MemStore
  datatype ExtOp = ExtNone | IntMulL | IntMulH | IntDiv | IntRem

  datatype Inst = Inst(pc: nat, memAddr: nat, memOp: MemOp, isBranch: bool, brTaken: bool, dst: nat, ext: ExtOp)

  /** What the trace writer guarantees: an M-extension instruction is neither a branch nor a memory access. */
  predicate WellFormed(i: Inst) {
    i.ext.ExtNone? || (!i.isBranch && i.memOp.MemNone?)
  }

  predicate Taken(i: Inst) {
    i.isBranch && i.brTaken
  }

  function Target(i: Inst): nat {
    if Taken(i) then i.memAddr else 0
  }

  predicate IsMul(i: Inst) { i.ext.IntMulH? || i.ext.IntMulL? }
  predicate IsDiv(i: Inst) { i.ext.IntDiv? || i.ext.IntRem? }

  /** Addresses whose top nibble is 3, 8, 9, a or b go to the data cache. */
  predicate Cacheable(addr: nat) {
    var top := addr / 0x1000_0000 % 16;
    top == 3 || top == 8 || top == 9 || top == 10 || top == 11
  }

  datatype BranchResult = BranchResult(predTaken: bool, target: nat, willRedirect: bool, snap: Snap, overrode: bool)

  const NO_PREDICTION := BranchResult(false, 0, false, NoSnap, false)

  /**
   What the tables answer to one lookup: the BTB target (0 for a miss), the direction of the predictor,
   that of its base table, and the top of the return stack if the BTB entry is a return.
   */
  datatype Query = Query(btb: nat, dir: bool, baseDir: bool, ras: Option<nat>)

  /** BranchUnit::predict */
  function Lookup(h: Hist, q: Query): (Hist, BranchResult)
  {
    var hit := q.btb != 0;
    var (h', snap) := Predict(h, q.dir, hit);
    var overrode := h.mode.Tage? && hit && q.dir != q.baseDir;
    var useRas := hit && q.ras.Some?;
    var target := if useRas then q.ras.value else q.btb;
    var taken := useRas || q.dir;
    (h', BranchResult(taken, target, taken && target != 0, snap, overrode))
  }

  /** BranchUnit::judge */
  predicate Judge(taken: bool, target: nat, pred: BranchResult) {
    if !taken && !pred.willRedirect then true
    else if taken && pred.willRedirect then pred.target == target
    else false
  }
}

/**
 The pipeline of src/pipeSim as a machine on values. Each function is one handler. The wake-up ticks of
 the stages, operand readiness, cache readiness and predictor tables are inputs, so a property of
 every run of this machine holds for every timing of the simulator.
 */
module Core {
  import opened Common
  import opened Isa
  import H = History

  /**
   A transaction. `pos` is the trace position of a real instruction, `rid` numbers the iCache read made
   for it and `predNo` the predictor lookup made for it; the source keeps none of the three.
   */
  datatype Trans = Trans(
    inst: Inst,
    pos: nat,
    rid: nat,
    predNo: Option<nat>,
    pred: BranchResult,
    brMispred: bool,
    isWrongPath: bool,
    waitMem: bool,
    counted: bool,
    hold: nat)

  datatype FetchState = FetchState(
    wrongPath: bool,
    wpFlushed: bool,
    resumeTick: nat,
    earlyRedir: nat,
    respIsOrphan: seq<bool>)

  /** History of a run: what was fed and committed, and what the memory side and the predictor have seen. */
  datatype Log = Log(
    trace: seq<Inst>,
    commits: seq<nat>,
    outstanding: seq<nat>,
    nextRid: nat,
    lsuOut: bool,
    contrib: seq<bool>,
    predLog: seq<seq<bool>>,
    branches: seq<Seen>)

  /** A right-path branch as it was fetched: its lookup, what `contrib` held before it, and how it went. */
  datatype Seen = Seen(predNo: nat, before: nat, taken: bool, hit: bool, viaRas: bool)

  datatype Config = Config(cap: nat, hasBypass: bool, noBpu: bool)

  datatype Core = Core(
    cfg: Config,
    input: Option<Trans>,
    ifq: seq<Trans>,
    fetch: Option<Trans>,
    decode: Option<Trans>,
    execute: Option<Trans>,
    mul: Option<Trans>,
    div: Option<Trans>,
    mem: Option<Trans>,
    fs: FetchState,
    ongoing: int,
    mulReady: nat,
    divReady: nat,
    hist: H.Hist,
    log: Log)

  const BRANCH_MISS_PENALTY := 1
  const MUL_LAT := 4
  const DIV_LAT := 34

  function Init(cfg: Config, mode: H.Mode, len: nat): Core {
    Core(cfg, None, [], None, None, None, None, None, None,
         FetchState(false, false, 0, 0, []), 0, 0, 0, H.Init(mode, len),
         Log([], [], [], 0, false, [], [], []))
  }

  // ---------------------------------------------------------------- front end

  function FeedInst(c: Core, inst: Inst): Core
    requires c.input.None?
  {
    var t := Trans(inst, |c.log.trace|, 0, None, NO_PREDICTION, false, false, false, true, 0);
    c.(ongoing := c.ongoing + 1, input := Some(t), log := c.log.(trace := c.log.trace + [inst]))
  }

  /** imem->read_req together with its entry in the response-ordering FIFO. */
  function IssueRead(c: Core, orphan: bool): Core {
    c.(fs := c.fs.(respIsOrphan := c.fs.respIsOrphan + [orphan]),
       log := c.log.(outstanding := c.log.outstanding + [c.log.nextRid], nextRid := c.log.nextRid + 1))
  }

  /** BranchUnit::predict on behalf of the front end, with its entry in the prediction log. */
  function LookupAt(c: Core, q: Query): (Core, BranchResult)
  {
    var (h, pred) := Lookup(c.hist, q);
    (c.(hist := h, log := c.log.(predLog := c.log.predLog + [c.hist.ghr])), pred)
  }

  function WrongPathFetch(c: Core, pc: nat, q: Query): Core
  {
    var inst := Inst(pc, 0, MemNone, false, false, 0, ExtNone);
    var t := Trans(inst, 0, c.log.nextRid, Some(|c.log.predLog|), NO_PREDICTION, false, true, true, false, 0);
    var c1 := LookupAt(c, q).0;
    IssueRead(c1.(ifq := c1.ifq + [t]), false)
  }

  /**
   The bit a right-path branch adds to the global history: the actual direction if it was judged
   mispredicted, else the direction the predictor shifted in (TAGE shifts only on a BTB hit).
   */
  function Contribution(mode: H.Mode, inst: Inst, accurate: bool, q: Query): seq<bool> {
    match mode
    case NoHistory => []
    case Gshare => [if accurate then q.dir else Taken(inst)]
    case Tage => if !accurate then [Taken(inst)] else if q.btb != 0 then [q.dir] else []
  }

  /** predict_at_fetch and judge: only branches query the predictor, and each is recorded in the log. */
  function Classify(c: Core, inst: Inst, q: Query): (Core, BranchResult, bool) {
    if !inst.isBranch then (c, NO_PREDICTION, Judge(Taken(inst), Target(inst), NO_PREDICTION))
    else
      var (c1, pred) := LookupAt(c, q);
      var accurate := Judge(Taken(inst), Target(inst), pred);
      var seen := Seen(|c.log.predLog|, |c.log.contrib|, Taken(inst), q.btb != 0, q.ras.Some?);
      (c1.(log := c1.log.(contrib := c.log.contrib + Contribution(c.hist.mode, inst, accurate, q),
                          branches := c.log.branches + [seen])),
       pred, accurate)
  }

  function RealFetch(c: Core, now: nat, q: Query): Core
    requires c.input.Some?
  {
    var t := c.input.value;
    var hold := if t.inst.isBranch && c.cfg.noBpu then (if t.inst.brTaken then 2 else 0) else t.hold;
    var (c1, pred, accurate) := Classify(c.(input := None), t.inst, q);
    var t' := t.(waitMem := true, hold := hold, pred := pred, brMispred := !accurate, rid := c1.log.nextRid,
                 predNo := if t.inst.isBranch then Some(|c.log.predLog|) else None);
    Launch(c1, t', accurate, now)
  }

  /** The read of a classified instruction, and what its prediction means for the next fetches. */
  function Launch(c: Core, t: Trans, accurate: bool, now: nat): Core {
    var fs := c.fs.(
      wrongPath := c.fs.wrongPath || !accurate,
      resumeTick := if t.pred.overrode then Max(c.fs.resumeTick, now + 2) else c.fs.resumeTick,
      earlyRedir := if accurate && t.pred.willRedirect then 2 else c.fs.earlyRedir);
    IssueRead(c.(ifq := c.ifq + [t], fs := fs), false)
  }

  /** do_fetch_0: at most one iCache read. `pc` is the next wrong-path address. */
  function DoFetch0(c: Core, now: nat, ready: bool, pc: nat, q: Query): Core
  {
    if now < c.fs.resumeTick || !ready then c
    else if c.fs.earlyRedir > 0 then
      var c1 := IssueRead(c, true);
      c1.(fs := c1.fs.(earlyRedir := c1.fs.earlyRedir - 1))
    else if c.fs.wrongPath && !c.fs.wpFlushed then
      if |c.ifq| >= c.cfg.cap then c else WrongPathFetch(c, pc, q)
    else
      var c1 := Unblock(c);
      if |c1.ifq| >= c1.cfg.cap || c1.input.None? then c1 else RealFetch(c1, now, q)
  }

  /** The first fetch after an EX flush leaves wrong-path mode. */
  function Unblock(c: Core): Core {
    if c.fs.wrongPath then c.(fs := c.fs.(wrongPath := false, wpFlushed := false)) else c
  }

  function DoFetch1(c: Core): Core
    requires c.fetch.None?
  {
    if c.ifq == [] || c.ifq[0].waitMem then c
    else if c.ifq[0].hold > 0 then c.(ifq := c.ifq[0 := c.ifq[0].(hold := c.ifq[0].hold - 1)])
    else c.(fetch := Some(c.ifq[0]), ifq := c.ifq[1..])
  }

  /** The first queue entry that still waits for its iCache response; |q| if there is none. */
  function FirstWaiting(q: seq<Trans>): (k: nat)
    ensures k <= |q|
    ensures k < |q| ==> q[k].waitMem
    ensures forall i :: 0 <= i < k ==> !q[i].waitMem
  {
    if q == [] || q[0].waitMem then 0 else 1 + FirstWaiting(q[1..])
  }

  /** The two asserts of handle_ifu_resp. */
  predicate IfuRespOk(c: Core) {
    c.fs.respIsOrphan != [] && (c.fs.respIsOrphan[0] || FirstWaiting(c.ifq) < |c.ifq|)
  }

  function HandleIfuResp(c: Core): Core
    requires IfuRespOk(c)
  {
    var rest := c.fs.(respIsOrphan := c.fs.respIsOrphan[1..]);
    if c.fs.respIsOrphan[0] then c.(fs := rest)
    else
      var k := FirstWaiting(c.ifq);
      c.(fs := rest, ifq := c.ifq[k := c.ifq[k].(waitMem := false)])
  }

  // ---------------------------------------------------------------- decode and execute

  predicate WritesDst(o: Option<Trans>, dst: nat) {
    o.Some? && o.value.inst.dst == dst
  }

  /** do_decode; `ready` says that both source registers are ready. */
  function DoDecode(c: Core, ready: bool): Core
    requires c.fetch.Some? && c.decode.None?
  {
    var t := c.fetch.value;
    if t.isWrongPath then c.(fetch := None)
    else if !t.inst.ext.ExtNone? && (c.mul.Some? || c.div.Some?) then c
    else if !ready then c
    else if t.inst.dst != 0 && (WritesDst(c.mul, t.inst.dst) || WritesDst(c.div, t.inst.dst)) then c
    else c.(decode := c.fetch, fetch := None)
  }

  function AllTrue(s: seq<bool>): (r: seq<bool>)
    ensures |r| == |s| && forall i :: 0 <= i < |r| ==> r[i]
  {
    seq(|s|, _ => true)
  }

  function CountCounted(q: seq<Trans>): nat {
    if q == [] then 0 else (if q[0].counted then 1 else 0) + CountCounted(q[1..])
  }

  /** The EX flush: younger queue entries and the one in Fetch are discarded, pending responses become orphans. */
  function Flush(c: Core, now: nat): Core {
    c.(fs := c.fs.(respIsOrphan := AllTrue(c.fs.respIsOrphan), wpFlushed := true, earlyRedir := 0,
                   resumeTick := now + BRANCH_MISS_PENALTY),
       ongoing := c.ongoing - CountCounted(c.ifq)
                  - (if c.fetch.Some? && c.fetch.value.counted then 1 else 0),
       ifq := [],
       fetch := None)
  }

  /** flush_false_btb_hit: the flush of a non-branch that was predicted as a taken branch. */
  function FlushFalseHit(c: Core, t: Trans, now: nat): Core {
    if t.inst.isBranch || !t.brMispred then c
    else if t.pred.target == 0 then Flush(c, now)
    else Flush(c.(hist := H.Repair(c.hist, false, t.pred.snap)), now)
  }

  function DoExecute(c: Core, now: nat): Core
    requires c.decode.Some? && c.execute.None?
  {
    var t := c.decode.value;
    if !t.inst.ext.ExtNone? then c
    else
      var c1 := if t.inst.isBranch && t.brMispred
                then Flush(c.(hist := H.Repair(c.hist, t.inst.brTaken, t.pred.snap)), now) else c;
      var c2 := FlushFalseHit(c1, t, now);
      c2.(execute := c2.decode, decode := None)
  }

  function DoMulExt(c: Core, now: nat): Core
    requires c.decode.Some? && c.mul.None?
  {
    var t := c.decode.value;
    if !IsMul(t.inst) then c
    else
      var c1 := FlushFalseHit(c, t, now);
      c1.(mul := c1.decode, decode := None, mulReady := now + MUL_LAT)
  }

  function DoDivExt(c: Core, now: nat): Core
    requires c.decode.Some? && c.div.None?
  {
    var t := c.decode.value;
    if !IsDiv(t.inst) then c
    else
      var c1 := FlushFalseHit(c, t, now);
      c1.(div := c1.decode, decode := None, divReady := now + DIV_LAT)
  }

  // ---------------------------------------------------------------- memory and write-back

  /** A non-cacheable access with no bypass port is timed inside the pipeline. */
  predicate Legacy(cfg: Config, inst: Inst) {
    !inst.memOp.MemNone? && !Cacheable(inst.memAddr) && !cfg.hasBypass
  }

  function DoMemory(c: Core, portReady: bool): Core
    requires c.execute.Some? && c.mem.None?
  {
    var t := c.execute.value;
    if t.waitMem then
      if Legacy(c.cfg, t.inst) then c.(mem := Some(t.(waitMem := false)), execute := None) else c
    else if Legacy(c.cfg, t.inst) then c.(execute := Some(t.(waitMem := true)))
    else if !t.inst.memOp.MemNone? then
      if portReady then c.(execute := Some(t.(waitMem := true)), log := c.log.(lsuOut := true)) else c
    else c.(mem := c.execute, execute := None)
  }

  /** The asserts of handle_lsu_resp. */
  predicate LsuRespOk(c: Core) {
    c.execute.Some? && c.execute.value.waitMem && c.mem.None?
  }

  function HandleLsuResp(c: Core): Core
    requires LsuRespOk(c)
  {
    c.(mem := Some(c.execute.value.(waitMem := false)), execute := None)
  }

  datatype Source = FromMem | FromDiv | FromMul | Nothing

  function CommitSource(c: Core, now: nat): Source {
    if c.mem.Some? then FromMem
    else if c.execute.None? && c.div.Some? && now >= c.divReady then FromDiv
    else if c.execute.None? && c.mul.Some? && now >= c.mulReady then FromMul
    else Nothing
  }

  function DoWriteback(c: Core, now: nat): Core {
    var c1 := match CommitSource(c, now)
      case FromMem => Retired(c, c.mem).(mem := None)
      case FromDiv => Retired(c, c.div).(div := None)
      case FromMul => Retired(c, c.mul).(mul := None)
      case Nothing => c;
    c1
  }

  function Retired(c: Core, slot: Option<Trans>): Core
    requires slot.Some?
  {
    c.(ongoing := c.ongoing - 1, log := c.log.(commits := c.log.commits + [slot.value.pos]))
  }

  // ---------------------------------------------------------------- one tick

  /** What a tick draws from outside: which stages are due, and the answers of caches and predictor. */
  datatype Env = Env(
    dueWb: bool, dueMem: bool, dueDiv: bool, dueMul: bool, dueEx: bool, dueId: bool, dueIf: bool,
    operands: bool, lsuReady: bool, icReady: bool, pc: nat, q: Query)

  predicate WbValid(c: Core, now: nat) {
    c.mem.Some? || (c.mul.Some? && now >= c.mulReady) || (c.div.Some? && now >= c.divReady)
  }

  /** update_impl: the stages in reverse order, then the fetch of one instruction. */
  function BackEnd(c: Core, now: nat, e: Env): Core {
    var c1 := if e.dueWb && WbValid(c, now) then DoWriteback(c, now) else c;
    var c2 := if e.dueMem && c1.mem.None? && c1.execute.Some? then DoMemory(c1, e.lsuReady) else c1;
    var c3 := if e.dueDiv && c2.div.None? && c2.decode.Some? then DoDivExt(c2, now) else c2;
    if e.dueMul && c3.mul.None? && c3.decode.Some? then DoMulExt(c3, now) else c3
  }

  function FrontEnd(c: Core, now: nat, e: Env): Core
  {
    var c1 := if e.dueEx && c.execute.None? && c.decode.Some? then DoExecute(c, now) else c;
    var c2 := if e.dueId && c1.decode.None? && c1.fetch.Some? then DoDecode(c1, e.operands) else c1;
    if e.dueIf && c2.fetch.None? then DoFetch1(c2) else c2
  }

  function Update(c: Core, now: nat, e: Env): Core
  {
    DoFetch0(FrontEnd(BackEnd(c, now, e), now, e), now, e.icReady, e.pc, e.q)
  }

  // ---------------------------------------------------------------- runs

  /** One handler call. A tick is a sequence of them (see Update), so runs cover the states inside a tick. */
  datatype Event =
    | Feed(inst: Inst)
    | Fetch0(at: nat, ready: bool, pc: nat, q: Query)
    | Fetch1
    | Decode(operands: bool)
    | Execute(at: nat)
    | Mul(at: nat)
    | Div(at: nat)
    | Memory(portReady: bool)
    | Writeback(at: nat)
    | IfuResp
    | LsuResp

  /** A stage fires when its slot is free and its predecessor is not; caches answer only what was asked. */
  predicate Possible(c: Core, e: Event) {
    match e
    case Feed(inst) => c.input.None? && WellFormed(inst)
    case Fetch0(_, _, _, _) => true
    case Fetch1 => c.fetch.None?
    case Decode(_) => c.fetch.Some? && c.decode.None?
    case Execute(_) => c.decode.Some? && c.execute.None?
    case Mul(_) => c.decode.Some? && c.mul.None?
    case Div(_) => c.decode.Some? && c.div.None?
    case Memory(_) => c.execute.Some? && c.mem.None?
    case Writeback(now) => WbValid(c, now)
    case IfuResp => c.log.outstanding != []
    case LsuResp => c.log.lsuOut
  }

  /** The asserts that a response can run into. */
  predicate AssertsHold(c: Core, e: Event) {
    && (e.IfuResp? ==> IfuRespOk(c))
    && (e.LsuResp? ==> LsuRespOk(c))
  }

  function Step(c: Core, e: Event): Core
    requires Possible(c, e) && AssertsHold(c, e)
  {
    match e
    case Feed(inst) => FeedInst(c, inst)
    case Fetch0(now, ready, pc, q) => DoFetch0(c, now, ready, pc, q)
    case Fetch1 => DoFetch1(c)
    case Decode(ready) => DoDecode(c, ready)
    case Execute(now) => DoExecute(c, now)
    case Mul(now) => DoMulExt(c, now)
    case Div(now) => DoDivExt(c, now)
    case Memory(ready) => DoMemory(c, ready)
    case Writeback(now) => DoWriteback(c, now)
    case IfuResp => HandleIfuResp(c).(log := c.log.(outstanding := c.log.outstanding[1..]))
    case LsuResp => HandleLsuResp(c).(log := c.log.(lsuOut := false))
  }
}

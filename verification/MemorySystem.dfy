/**
 Caches, arbiter and SDRAM together, driven tick by tick as the main loop drives them: memory first, then
 caches and CPU requests, then the tick advances. Host 0 is the instruction cache, host 1 the data cache
 (or its uncached stand-in), host 2 the bypass port for addresses that are not cacheable.
 */
module MemorySystem {
  import opened Common
  import opened Arith
  import opened Isa
  import opened Routing
  import opened Arbiter
  import S = Sdram
  import B = CacheBase
  import P = PipeCache

  /** NoCache: one read and one write at a time, straight to memory. */
  datatype Port = Port(rBusy: bool, wBusy: bool)

  datatype DataSide = Cached(cache: P.State) | Uncached(port: Port)

  datatype Sys = Sys(
    now: nat,
    memDone: bool,
    rd: Channel,
    wr: Channel,
    mem: Mem,
    ic: P.State,
    dc: DataSide,
    bypass: Port,
    nextUid: nat)

  const HOSTS: nat := 3

  /** The configuration: CPU clock ratio, device latencies, cache geometries. A data cache is optional. */
  datatype Config = Config(
    ratio: nat, sramLat: nat, mmioLat: nat,
    icGeo: B.Geometry, icPolicy: B.Policy, icDepth: nat,
    dcGeo: Option<B.Geometry>, dcPolicy: B.Policy)

  /** Lines hold at least one word; those of the data cache divide the 256 MB regions of the map. */
  predicate GoodConfig(g: Config) {
    && g.ratio > 0
    && B.GoodGeometry(g.icGeo) && g.icGeo.lineBytes >= 4 && g.icDepth > 0
    && (g.dcGeo.Some? ==>
          B.GoodGeometry(g.dcGeo.value) && g.dcGeo.value.lineBytes >= 4 && 0x1000_0000 % g.dcGeo.value.lineBytes == 0)
  }

  function Init(g: Config): Sys
    requires GoodConfig(g)
  {
    Sys(0, false, InitChannel(HOSTS), InitChannel(HOSTS), Mem(S.Init(g.ratio), g.sramLat, g.mmioLat, [], []),
        P.Init(g.icGeo, g.icPolicy, g.icDepth, false),
        if g.dcGeo.Some? then Cached(P.Init(g.dcGeo.value, g.dcPolicy, 1, true)) else Uncached(Port(false, false)),
        Port(false, false), 0)
  }

  // ---------------------------------------------------------------- requests to memory

  /** mem_side_->recv_req */
  function Send(s: Sys, host: nat, isRead: bool, addr: nat, words: nat): Sys
    requires s.mem.sdram.ratio > 0 && |s.rd.slots| == |s.wr.slots| == HOSTS && host < HOSTS
  {
    var r := Req(host, isRead, addr, words, s.nextUid);
    if isRead then
      var (c, m) := Accept(s.rd, s.mem, r, s.now);
      s.(rd := c, mem := m, nextUid := s.nextUid + 1)
    else
      var (c, m) := Accept(s.wr, s.mem, r, s.now);
      s.(wr := c, mem := m, nextUid := s.nextUid + 1)
  }

  function SendMaybe(s: Sys, host: nat, q: Option<P.MemReq>): Sys
    requires s.mem.sdram.ratio > 0 && |s.rd.slots| == |s.wr.slots| == HOSTS && host < HOSTS
  {
    if q.Some? then Send(s, host, q.value.isRead, q.value.addr, q.value.words) else s
  }

  // ---------------------------------------------------------------- responses

  /** The callback of host h for its own response. */
  predicate CanReceive(s: Sys, h: nat, isRead: bool) {
    match h
    case 0 => isRead && P.ReadRespOk(s.ic)
    case 1 =>
      (match s.dc
       case Cached(d) => if isRead then P.ReadRespOk(d) else d.wWaiting
       case Uncached(p) => if isRead then p.rBusy else p.wBusy)
    case _ => if isRead then s.bypass.rBusy else s.bypass.wBusy
  }

  function PortDone(p: Port, isRead: bool): Port {
    if isRead then p.(rBusy := false) else p.(wBusy := false)
  }

  function Receive(s: Sys, h: nat, isRead: bool): Sys
    requires CanReceive(s, h, isRead)
  {
    match h
    case 0 => s.(ic := P.ReadResp(s.ic, s.now))
    case 1 =>
      (match s.dc
       case Cached(d) => s.(dc := Cached(if isRead then P.ReadResp(d, s.now) else P.WriteResp(d)))
       case Uncached(p) => s.(dc := Uncached(PortDone(p, isRead))))
    case _ => s.(bypass := PortDone(s.bypass, isRead))
  }

  predicate CanTake(c: Channel) {
    c.busy.Some? && c.serving.Some? && c.serving.value < |c.slots| && c.slots[c.serving.value].Some?
  }

  /** The read half of update_impl: deliver, then pick the next. */
  predicate ReadHalfOk(s: Sys) {
    Due(s.rd, s.now) ==> CanTake(s.rd) && CanReceive(s, s.rd.serving.value, true)
  }

  function ReadHalf(s: Sys): Sys
    requires s.mem.sdram.ratio > 0 && ReadHalfOk(s)
  {
    if !Due(s.rd, s.now) then s
    else
      var h := s.rd.serving.value;
      var s1 := Receive(s.(rd := Take(s.rd, s.now).0), h, true);
      var (c, m) := Pick(s1.rd, s1.mem, s1.now);
      s1.(rd := c, mem := m)
  }

  predicate WriteHalfOk(s: Sys) {
    Due(s.wr, s.now) ==> CanTake(s.wr) && CanReceive(s, s.wr.serving.value, false)
  }

  function WriteHalf(s: Sys): Sys
    requires s.mem.sdram.ratio > 0 && WriteHalfOk(s)
  {
    if !Due(s.wr, s.now) then s
    else
      var h := s.wr.serving.value;
      var s1 := Receive(s.(wr := Take(s.wr, s.now).0), h, false);
      var (c, m) := Pick(s1.wr, s1.mem, s1.now);
      s1.(wr := c, mem := m)
  }

  // ---------------------------------------------------------------- events

  datatype Event =
    | MemRead                                     // first half of the memory update of this tick
    | MemWrite                                    // second half, after which the tick's memory work is done
    | IcTick                                      // update of the instruction cache
    | DcTick                                      // update of the data cache
    | Fetch(pc: nat, uid: nat)                    // read_req on the instruction cache
    | Access(addr: nat, isWrite: bool, uid: nat)  // one load or store
    | FlushAll                                    // FENCE.I
    | ResetStats
    | Advance                                     // the global tick moves on

  /** No load or store is out: the data side has answered everything and both ports are quiet. */
  predicate LsuIdle(s: Sys) {
    && !s.bypass.rBusy && !s.bypass.wBusy
    && match s.dc
       case Cached(d) => |d.log.accepted| == |d.log.answered|
       case Uncached(p) => !p.rBusy && !p.wBusy
  }

  /**
   What the main loop and the pipeline respect. The memory update runs once per tick and is skipped only
   if no channel is due; the pipeline has one load or store out at a time.
   */
  predicate Possible(s: Sys, e: Event) {
    match e
    case MemRead => !s.memDone
    case MemWrite => !s.memDone && !Due(s.rd, s.now)
    case IcTick => P.Awake(s.ic)
    case DcTick => s.dc.Cached? && P.Awake(s.dc.cache)
    case Fetch(_, _) => P.Ready(s.ic)
    case Access(addr, _, _) => addr < 0x1_0000_0000 && LsuIdle(s) && (Cacheable(addr) && s.dc.Cached? ==> P.Ready(s.dc.cache))
    case FlushAll => true
    case ResetStats => true
    case Advance => s.memDone
  }

  /** The assert of recv_req: the slot of the host is empty. */
  predicate SlotFree(s: Sys, host: nat, isRead: bool)
    requires |s.rd.slots| == |s.wr.slots| == HOSTS && host < HOSTS
  {
    if isRead then s.rd.slots[host].None? else s.wr.slots[host].None?
  }

  predicate SendOk(s: Sys, host: nat, q: Option<P.MemReq>)
    requires |s.rd.slots| == |s.wr.slots| == HOSTS && host < HOSTS
  {
    q.Some? ==> SlotFree(s, host, q.value.isRead)
  }

  /** The assert of an uncached port, and that of the arbiter behind it. */
  predicate PortOk(s: Sys, host: nat, p: Port, isWrite: bool)
    requires |s.rd.slots| == |s.wr.slots| == HOSTS && host < HOSTS
  {
    !(if isWrite then p.wBusy else p.rBusy) && SlotFree(s, host, !isWrite)
  }

  /** The preconditions and asserts of the code that an event runs. */
  predicate Safe(s: Sys, e: Event) {
    && s.mem.sdram.ratio > 0 && |s.rd.slots| == |s.wr.slots| == HOSTS
    && match e
       case MemRead => ReadHalfOk(s)
       case MemWrite => WriteHalfOk(s)
       case IcTick => P.UpdateOk(s.ic) && SendOk(s, 0, P.Update(s.ic, s.now).sent)
       case DcTick => s.dc.Cached? ==> P.UpdateOk(s.dc.cache) && SendOk(s, 1, P.Update(s.dc.cache, s.now).sent)
       case Fetch(_, _) => P.RequestOk(s.ic)
       case Access(addr, isWrite, _) =>
         if !Cacheable(addr) then PortOk(s, 2, s.bypass, isWrite)
         else if s.dc.Cached? then P.RequestOk(s.dc.cache)
         else PortOk(s, 1, s.dc.port, isWrite)
       case FlushAll => true
       case ResetStats => true
       case Advance => true
  }

  /** NoCache::read_req and write_req on host h. */
  function PortBusy(p: Port, isWrite: bool): Port {
    if isWrite then p.(wBusy := true) else p.(rBusy := true)
  }

  function Align(addr: nat): nat {
    addr - addr % 4
  }

  function LsuAccess(s: Sys, addr: nat, isWrite: bool, uid: nat): Sys
    requires Safe(s, Event.Access(addr, isWrite, uid))
  {
    var a := Align(addr);
    if Cacheable(addr) then
      match s.dc
      case Cached(d) => s.(dc := Cached(P.Request(d, a, isWrite, uid)))
      case Uncached(p) => Send(s, 1, !isWrite, a, 1).(dc := Uncached(PortBusy(p, isWrite)))
    else Send(s, 2, !isWrite, a, 1).(bypass := PortBusy(s.bypass, isWrite))
  }

  function Step(s: Sys, e: Event): Sys
    requires Possible(s, e) && Safe(s, e)
  {
    match e
    case MemRead => ReadHalf(s)
    case MemWrite => WriteHalf(s).(memDone := true)
    case IcTick =>
      var r := P.Update(s.ic, s.now);
      SendMaybe(s, 0, r.sent).(ic := r.state)
    case DcTick =>
      var r := P.Update(s.dc.cache, s.now);
      SendMaybe(s, 1, r.sent).(dc := Cached(r.state))
    case Fetch(pc, uid) => s.(ic := P.Request(s.ic, pc, false, uid))
    case Access(addr, isWrite, uid) => LsuAccess(s, addr, isWrite, uid)
    case FlushAll =>
      s.(ic := s.ic.(pendingFlush := true),
         dc := if s.dc.Cached? then Cached(s.dc.cache.(pendingFlush := true)) else s.dc)
    case ResetStats => s.(mem := s.mem.(sdram := S.ResetStats(s.mem.sdram), since := []))
    case Advance => s.(now := s.now + 1, memDone := false)
  }
}

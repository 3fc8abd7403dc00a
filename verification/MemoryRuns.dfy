/** What holds in every reachable state of the memory system. */
module MemoryRuns {
  import opened Common
  import opened Routing
  import opened Arbiter
  import opened MemorySystem
  import opened MemoryTiming
  import opened MemorySystemInv
  import Isa
  import S = Sdram
  import P = PipeCache
  import I = PipeCacheInv

  function Run(s: Sys, es: seq<Event>): Option<Sys> {
    if es == [] then Some(s)
    else
      match Run(s, es[..|es| - 1])
      case None => None
      case Some(t) =>
        var e := es[|es| - 1];
        if Possible(t, e) && Safe(t, e) then Some(Step(t, e)) else None
  }

  ghost predicate Reachable(s: Sys) {
    exists g, es :: GoodConfig(g) && Run(MemorySystem.Init(g), es) == Some(s)
  }

  // ---------------------------------------------------------------- deliveries and their SDRAM accesses

  /** v is the access that timed r, which is due its latency after the service began. */
  predicate ServedFor(v: Served, r: Req, due: nat) {
    v.req == ToSdram(r, v.req.tick) && due == v.Start() + v.lat
  }

  predicate Timed(served: seq<Served>, r: Req, due: nat) {
    exists i :: 0 <= i < |served| && ServedFor(served[i], r, due)
  }

  /** Every SDRAM request that is being served, or was delivered, is due by an access on record. */
  predicate ChannelTimed(c: Channel, m: Mem) {
    && (CanTake(c) && IsSdram(c.slots[c.serving.value].value) ==> Timed(m.served, c.slots[c.serving.value].value, c.busy.value))
    && forall i :: 0 <= i < |c.delivered| && IsSdram(c.delivered[i].req) ==> Timed(m.served, c.delivered[i].req, c.delivered[i].due)
  }

  lemma TimedLater(a: seq<Served>, b: seq<Served>, r: Req, due: nat)
    requires a <= b && Timed(a, r, due)
    ensures Timed(b, r, due)
  {
    hide ServedFor;
    var i :| 0 <= i < |a| && ServedFor(a[i], r, due);
    assert ServedFor(b[i], r, due);
  }

  lemma ChannelLater(c: Channel, m: Mem, m': Mem)
    requires ChannelTimed(c, m) && m.served <= m'.served
    ensures ChannelTimed(c, m')
  {
    hide Timed, IsSdram;
    if CanTake(c) && IsSdram(c.slots[c.serving.value].value) {
      TimedLater(m.served, m'.served, c.slots[c.serving.value].value, c.busy.value);
    }
    forall i | 0 <= i < |c.delivered| && IsSdram(c.delivered[i].req) ensures Timed(m'.served, c.delivered[i].req, c.delivered[i].due) {
      TimedLater(m.served, m'.served, c.delivered[i].req, c.delivered[i].due);
    }
  }

  /** lat_of puts the access on record. */
  lemma LatOfTimed(m: Mem, r: Req, now: nat, picked: bool)
    requires m.sdram.ratio > 0
    ensures var (m', lat) := LatOf(m, r, now, picked);
      && m.served <= m'.served
      && (IsSdram(r) ==> Timed(m'.served, r, now + (if picked then 1 else 0) + lat))
  {
    hide DeviceOf, S.Access;
    var (m', lat) := LatOf(m, r, now, picked);
    if IsSdram(r) {
      var v := m'.served[|m.served|];
      assert v == Served(m.since, ToSdram(r, now), lat, picked);
      assert ServedFor(v, r, now + (if picked then 1 else 0) + lat);
    }
  }

  lemma AcceptTimed(c: Channel, m: Mem, r: Req, now: nat)
    requires m.sdram.ratio > 0 && r.host < |c.slots| && c.slots[r.host].None? && ChannelTimed(c, m) && ChannelOk(c)
    ensures var (c', m') := Accept(c, m, r, now); ChannelTimed(c', m') && m.served <= m'.served
  {
    hide LatOf, Timed, SlotsOk, IsSdram;
    if c.busy.None? {
      LatOfTimed(m, r, now, false);
      ChannelLater(c, m, LatOf(m, r, now, false).0);
    }
  }

  lemma CompleteTimed(c: Channel, m: Mem, now: nat)
    requires m.sdram.ratio > 0 && ChannelTimed(c, m) && ChannelOk(c) && Due(c, now)
    ensures var (c', m') := Pick(Take(c, now).0, m, now); ChannelTimed(c', m') && m.served <= m'.served
  {
    hide LatOf, Timed, SlotsOk, IsSdram;
    var c1 := Take(c, now).0;
    var h := Highest(c1.slots);
    if h.Some? {
      LatOfTimed(m, c1.slots[h.value].value, now, true);
      ChannelLater(c, m, LatOf(m, c1.slots[h.value].value, now, true).0);
    }
  }

  predicate TimedOk(s: Sys) {
    ChannelTimed(s.rd, s.mem) && ChannelTimed(s.wr, s.mem)
  }

  lemma SendTimed(s: Sys, host: nat, isRead: bool, addr: nat, words: nat)
    requires SysInv(s) && TimedOk(s) && host < HOSTS && s.rd.slots[host].None? && s.wr.slots[host].None? && s.mem.sdram.ratio > 0
    ensures TimedOk(Send(s, host, isRead, addr, words))
  {
    hide TimingOk, ChannelOk, CachesOk, Linked, SerialOk, AcceptedOk, Accept, ChannelTimed;
    var r := Req(host, isRead, addr, words, s.nextUid);
    if isRead {
      AcceptTimed(s.rd, s.mem, r, s.now);
      ChannelLater(s.wr, s.mem, Accept(s.rd, s.mem, r, s.now).1);
    } else {
      AcceptTimed(s.wr, s.mem, r, s.now);
      ChannelLater(s.rd, s.mem, Accept(s.wr, s.mem, r, s.now).1);
    }
  }

  lemma ReadHalfTimed(s: Sys)
    requires SysInv(s) && TimedOk(s) && s.mem.sdram.ratio > 0 && ReadHalfOk(s)
    ensures TimedOk(ReadHalf(s))
  {
    hide TimingOk, ChannelOk, CachesOk, Linked, SerialOk, AcceptedOk, Pick, Take, ChannelTimed, CanReceive, Receive;
    if Due(s.rd, s.now) {
      var s0 := s.(rd := Take(s.rd, s.now).0);
      ReceiveFrame(s, s0, s.rd.serving.value, true);
      ReceiveKeeps(s0, s.rd.serving.value, true);
      CompleteTimed(s.rd, s.mem, s.now);
      ChannelLater(s.wr, s.mem, Pick(s0.rd, s.mem, s.now).1);
    }
  }

  lemma WriteHalfTimed(s: Sys)
    requires SysInv(s) && TimedOk(s) && s.mem.sdram.ratio > 0 && WriteHalfOk(s)
    ensures TimedOk(WriteHalf(s))
  {
    hide TimingOk, ChannelOk, CachesOk, Linked, SerialOk, AcceptedOk, Pick, Take, ChannelTimed, CanReceive, Receive;
    if Due(s.wr, s.now) {
      var s0 := s.(wr := Take(s.wr, s.now).0);
      ReceiveFrame(s, s0, s.wr.serving.value, false);
      ReceiveKeeps(s0, s.wr.serving.value, false);
      CompleteTimed(s.wr, s.mem, s.now);
      ChannelLater(s.rd, s.mem, Pick(s0.wr, s.mem, s.now).1);
    }
  }

  lemma ReceiveKeeps(s: Sys, h: nat, isRead: bool)
    requires CanReceive(s, h, isRead)
    ensures var s' := Receive(s, h, isRead); s' == s.(ic := s'.ic, dc := s'.dc, bypass := s'.bypass)
  {
    hide P.ReadResp, P.WriteResp, P.ReadRespOk;
  }

  /** The one that sends is free, so its request finds an empty slot. */
  lemma TickTimed(s: Sys, host: nat, c: P.State)
    requires SysInv(s) && TimedOk(s) && s.mem.sdram.ratio > 0 && I.Inv(c) && P.Awake(c)
    requires (host == 0 && c == s.ic) || (host == 1 && s.dc == Cached(c))
    ensures P.UpdateOk(c)
    ensures TimedOk(SendMaybe(s, host, P.Update(c, s.now).sent))
  {
    hide I.Inv, TimingOk, ChannelOk, SerialOk, AcceptedOk, ChannelTimed, P.Update, P.UpdateOk, P.Awake, Send;
    I.UpdateInv(c, s.now);
    var q := P.Update(c, s.now).sent;
    if q.Some? {
      HostFree(s, host);
      SendTimed(s, host, q.value.isRead, q.value.addr, q.value.words);
    }
  }

  lemma AccessTimed(s: Sys, addr: nat, isWrite: bool, uid: nat)
    requires SysInv(s) && TimedOk(s) && Possible(s, Event.Access(addr, isWrite, uid)) && Safe(s, Event.Access(addr, isWrite, uid))
    ensures TimedOk(LsuAccess(s, addr, isWrite, uid))
  {
    hide I.Inv, TimingOk, ChannelOk, CachesOk, SerialOk, AcceptedOk, ChannelTimed, P.Request, P.Ready, P.RequestOk, Isa.Cacheable, Send, Align;
    if !(Isa.Cacheable(addr) && s.dc.Cached?) {
      var host := if Isa.Cacheable(addr) then 1 else 2;
      HostFree(s, host);
      SendTimed(s, host, !isWrite, Align(addr), 1);
    }
  }

  lemma StepTimed(s: Sys, e: Event)
    requires SysInv(s) && TimedOk(s) && Possible(s, e) && Safe(s, e)
    ensures TimedOk(Step(s, e))
  {
    hide I.Inv, TimingOk, ChannelOk, Linked, SerialOk, AcceptedOk, ChannelTimed, ReadHalf, WriteHalf, ReadHalfOk, WriteHalfOk, Due, LsuIdle;
    hide P.Update, P.Request, P.Ready, P.Awake, P.UpdateOk, P.RequestOk, LsuAccess, SendMaybe, Isa.Cacheable;
    match e {
      case MemRead => ReadHalfTimed(s);
      case MemWrite => WriteHalfTimed(s);
      case IcTick => TickTimed(s, 0, s.ic);
      case DcTick => TickTimed(s, 1, s.dc.cache);
      case Access(addr, isWrite, uid) => AccessTimed(s, addr, isWrite, uid);
      case ResetStats =>
        var m := s.mem.(sdram := S.ResetStats(s.mem.sdram), since := []);
        ChannelLater(s.rd, s.mem, m);
        ChannelLater(s.wr, s.mem, m);
      case _ =>
    }
  }

  lemma {:induction false} RunInv(g: Config, es: seq<Event>)
    requires GoodConfig(g)
    ensures var r := Run(MemorySystem.Init(g), es); r.Some? ==> SysInv(r.value) && TimedOk(r.value)
  {
    hide SysInv, TimedOk, Step, Possible, Safe;
    if es == [] {
      InitInv(g);
      InitTimed(g);
    } else {
      var n := |es| - 1;
      RunInv(g, es[..n]);
      var t := Run(MemorySystem.Init(g), es[..n]);
      if t.Some? && Possible(t.value, es[n]) {
        StepInv(t.value, es[n]);
        StepTimed(t.value, es[n]);
      }
    }
  }

  lemma InitTimed(g: Config)
    requires GoodConfig(g)
    ensures TimedOk(MemorySystem.Init(g))
  {
  }

  lemma ReachableInv(s: Sys)
    requires Reachable(s)
    ensures SysInv(s) && TimedOk(s)
  {
    hide SysInv, TimedOk, Run, GoodConfig;
    var g, es :| GoodConfig(g) && Run(MemorySystem.Init(g), es) == Some(s);
    RunInv(g, es);
  }

  lemma InitReachable(g: Config)
    requires GoodConfig(g)
    ensures Reachable(MemorySystem.Init(g))
  {
    hide GoodConfig, MemorySystem.Init;
    assert Run(MemorySystem.Init(g), []) == Some(MemorySystem.Init(g));
  }

  /** One more possible event is one more reachable state. */
  lemma StepReachable(s: Sys, e: Event)
    requires Reachable(s) && Possible(s, e)
    ensures Safe(s, e) && Reachable(Step(s, e))
  {
    hide SysInv, TimedOk, Possible, Safe, Step, GoodConfig, MemorySystem.Init;
    ReachableInv(s);
    StepInv(s, e);
    var g, es :| GoodConfig(g) && Run(MemorySystem.Init(g), es) == Some(s);
    assert (es + [e])[..|es + [e]| - 1] == es;
    assert Run(MemorySystem.Init(g), es + [e]) == Some(Step(s, e));
  }

  // ---------------------------------------------------------------- main results

  /** No assert of the caches or the arbiter fails, and every response finds its host waiting. */
  lemma NoAssertFails(s: Sys, e: Event)
    requires Reachable(s) && Possible(s, e)
    ensures Safe(s, e)
  {
    hide SysInv, TimedOk, Possible, Safe;
    ReachableInv(s);
    StepInv(s, e);
  }

  /** Every SDRAM access took the documented latency, and no controller ever made a request wait. */
  lemma LatencyIsDocumented(s: Sys)
    requires Reachable(s)
    ensures s.mem.sdram.ratio > 0 && s.mem.sdram.stall == 0
    ensures forall v | v in s.mem.served :: v.lat == S.DocLatency(s.mem.sdram.ratio, v.before, v.req)
  {
    hide ChannelOk, CachesOk, Linked, SerialOk, AcceptedOk, TimedOk, FreeOk, OnTime, S.DocLatency;
    ReachableInv(s);
  }

  /**
   v is the access behind the delivery d, which came the documented latency after its service began: in the
   tick of the access if an idle channel accepted the request, one tick later if a completion picked it.
   */
  ghost predicate Explains(v: Served, d: Delivery, ratio: nat)
    requires ratio > 0
  {
    v.req == ToSdram(d.req, v.req.tick) && d.at == v.Start() + S.DocLatency(ratio, v.before, v.req)
  }

  /** End to end: an SDRAM request reaches its host exactly the documented latency after its service began. */
  lemma DeliveredOnTime(s: Sys, d: Delivery)
    requires Reachable(s) && (d in s.rd.delivered || d in s.wr.delivered) && IsSdram(d.req)
    ensures s.mem.sdram.ratio > 0
    ensures exists v :: v in s.mem.served && Explains(v, d, s.mem.sdram.ratio)
  {
    hide ChannelOk, CachesOk, Linked, SerialOk, AcceptedOk, FreeOk, MemOk, S.DocLatency, IsSdram, Timed;
    ReachableInv(s);
    LatencyIsDocumented(s);
    DueOnRecord(s, d);
    assert d.at == d.due;
    var i := RecordOf(s.mem.served, d.req, d.due);
    var v := s.mem.served[i];
    assert v in s.mem.served && Explains(v, d, s.mem.sdram.ratio);
  }

  lemma DueOnRecord(s: Sys, d: Delivery)
    requires TimedOk(s) && (d in s.rd.delivered || d in s.wr.delivered) && IsSdram(d.req)
    ensures Timed(s.mem.served, d.req, d.due)
  {
    hide Timed, IsSdram;
  }

  lemma RecordOf(served: seq<Served>, r: Req, due: nat) returns (i: nat)
    requires Timed(served, r, due)
    ensures i < |served| && ServedFor(served[i], r, due)
  {
    hide ServedFor;
    i :| 0 <= i < |served| && ServedFor(served[i], r, due);
  }

  /** Routing: whatever the data cache or its stand-in asks for comes from SDRAM, and the bypass port never touches it. */
  lemma RoutingAgrees(s: Sys, r: Req)
    requires Reachable(s) && (r in s.rd.accepted || r in s.wr.accepted)
    ensures r.host == 1 ==> IsSdram(r)
    ensures r.host == 2 ==> !IsSdram(r)
  {
    hide ChannelOk, CachesOk, Linked, SerialOk, TimingOk, TimedOk, IsSdram;
    ReachableInv(s);
  }

  /** An instruction fetch that waits for memory waits for at most the one service under way: its own is the next. */
  lemma FetchWaitsForOne(s: Sys)
    requires Reachable(s) && s.rd.slots != [] && s.rd.slots[0].Some? && !s.memDone && Due(s.rd, s.now) && s.rd.serving != Some(0)
    ensures s.mem.sdram.ratio > 0 && ReadHalfOk(s)
    ensures ReadHalf(s).rd.serving == Some(0)
  {
    hide SysInv, TimedOk;
    ReachableInv(s);
    OneDataRead(s);
    ReadHalfInv(s);
    hide DeviceOf, LatOf, Receive, CanReceive;
    var s0 := s.(rd := Take(s.rd, s.now).0);
    ReceiveFrame(s, s0, s.rd.serving.value, true);
    ReceiveKeeps(s0, s.rd.serving.value, true);
    LowestHostNext(s0.rd, s.mem, s.now);
  }

  /** At most one of the data-side hosts has a read out. */
  lemma OneDataRead(s: Sys)
    requires SysInv(s)
    ensures |s.rd.slots| == HOSTS && !(s.rd.slots[1].Some? && s.rd.slots[2].Some?)
    ensures s.rd.serving.Some? ==> s.rd.serving.value < HOSTS && s.rd.slots[s.rd.serving.value].Some?
  {
    hide TimingOk, SlotsOk, AcceptedOk, I.Inv;
    if s.bypass.rBusy && s.dc.Cached? { QuietIsIdle(s.dc.cache); }
  }

  /** Requests carry distinct numbers, so each is accepted once, charged at most once and delivered at most once. */
  lemma NoDuplicates(s: Sys, r: Req)
    requires Reachable(s)
    ensures multiset(Requests(s.rd.delivered))[r] <= multiset(s.rd.charged)[r] <= multiset(s.rd.accepted)[r] <= 1
    ensures multiset(Requests(s.wr.delivered))[r] <= multiset(s.wr.charged)[r] <= multiset(s.wr.accepted)[r] <= 1
  {
    hide TimingOk, ChannelOk, CachesOk, Linked, SerialOk, TimedOk, IsSdram, Requests;
    ReachableInv(s);
    DeliveredOnce(s.rd, r);
    DeliveredOnce(s.wr, r);
    Distinct(s.rd.accepted, s.nextUid, r);
    Distinct(s.wr.accepted, s.nextUid, r);
  }

  lemma {:induction false} Distinct(rs: seq<Req>, next: nat, r: Req)
    requires AcceptedOk(rs, next)
    ensures multiset(rs)[r] <= 1
  {
    hide IsSdram;
    if rs != [] {
      var n := |rs| - 1;
      Distinct(rs[..n], next, r);
      assert rs == rs[..n] + [rs[n]];
      if rs[n] == r { assert r !in rs[..n]; }
    }
  }
}

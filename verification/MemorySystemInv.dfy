/** The invariant that ties caches, arbiter and SDRAM together. */
module MemorySystemInv {
  import opened Common
  import opened Arith
  import opened Routing
  import opened Arbiter
  import opened MemorySystem
  import opened MemoryTiming
  import opened BlockOrigin
  import Isa
  import S = Sdram
  import B = CacheBase
  import P = PipeCache
  import I = PipeCacheInv

  ghost predicate TimingOk(s: Sys) {
    Timing(s.mem, s.rd, s.wr, s.now, s.memDone)
  }

  ghost predicate ChannelsOk(s: Sys) {
    ChannelOk(s.rd) && ChannelOk(s.wr) && |s.rd.slots| == |s.wr.slots| == HOSTS
  }

  /** The instruction cache only reads; the data cache writes back, and its lines divide the regions of the map. */
  ghost predicate CachesOk(s: Sys) {
    && I.Inv(s.ic) && !s.ic.writeBack && s.ic.cache.geo.lineBytes >= 4
    && (s.dc.Cached? ==> I.Inv(s.dc.cache) && s.dc.cache.writeBack && s.dc.cache.cache.geo.lineBytes >= 4 && BlocksOk(s.dc.cache))
  }

  predicate Reading(d: DataSide) {
    match d
    case Cached(c) => c.rWaiting
    case Uncached(p) => p.rBusy
  }

  predicate Writing(d: DataSide) {
    match d
    case Cached(c) => c.wWaiting
    case Uncached(p) => p.wBusy
  }

  /** A host waits for memory exactly while its request is in its slot, and for one thing at a time. */
  predicate Linked(s: Sys) {
    && |s.rd.slots| == |s.wr.slots| == HOSTS
    && (s.rd.slots[0].Some? <==> s.ic.rWaiting) && s.wr.slots[0].None?
    && (s.rd.slots[1].Some? <==> Reading(s.dc)) && (s.wr.slots[1].Some? <==> Writing(s.dc))
    && (s.rd.slots[2].Some? <==> s.bypass.rBusy) && (s.wr.slots[2].Some? <==> s.bypass.wBusy)
    && !(Reading(s.dc) && Writing(s.dc)) && !(s.bypass.rBusy && s.bypass.wBusy)
  }

  /** The data side has answered everything it was asked. */
  predicate Quiet(d: DataSide) {
    match d
    case Cached(c) => |c.log.accepted| == |c.log.answered|
    case Uncached(p) => !p.rBusy && !p.wBusy
  }

  /** One load or store at a time. */
  predicate SerialOk(s: Sys) {
    s.bypass.rBusy || s.bypass.wBusy ==> Quiet(s.dc)
  }

  /** Requests are numbered; host 1 asks SDRAM for whole words, host 2 never asks SDRAM. */
  predicate AcceptedOk(rs: seq<Req>, next: nat) {
    && (forall i :: 0 <= i < |rs| ==> rs[i].uid < next)
    && (forall i, j :: 0 <= i < j < |rs| ==> rs[i].uid < rs[j].uid)
    && (forall i :: 0 <= i < |rs| ==> (rs[i].host == 1 ==> IsSdram(rs[i])) && (rs[i].host == 2 ==> !IsSdram(rs[i])))
  }

  ghost predicate SysInv(s: Sys) {
    && TimingOk(s) && ChannelsOk(s) && CachesOk(s) && Linked(s) && SerialOk(s)
    && AcceptedOk(s.rd.accepted, s.nextUid) && AcceptedOk(s.wr.accepted, s.nextUid)
  }

  // ---------------------------------------------------------------- start

  lemma InitInv(g: Config)
    requires GoodConfig(g)
    ensures SysInv(MemorySystem.Init(g))
  {
    hide P.Init, I.Inv, BlocksOk;
    InitOk(HOSTS);
    I.InitInv(g.icGeo, g.icPolicy, g.icDepth, false);
    InitCache(g.icGeo, g.icPolicy, g.icDepth, false);
    if g.dcGeo.Some? {
      I.InitInv(g.dcGeo.value, g.dcPolicy, 1, true);
      InitGood(g.dcGeo.value, g.dcPolicy, 1, true);
      InitCache(g.dcGeo.value, g.dcPolicy, 1, true);
    }
  }

  lemma InitCache(g: B.Geometry, policy: B.Policy, depth: nat, writeBack: bool)
    requires B.GoodGeometry(g) && depth > 0
    ensures var s := P.Init(g, policy, depth, writeBack);
      s.cache.geo == g && s.writeBack == writeBack && !s.rWaiting && !s.wWaiting && s.log.accepted == s.log.answered == []
  {
  }

  // ---------------------------------------------------------------- sending

  /** A request enters the free slot of its host, and nothing else of the system moves. */
  lemma SendInv(s: Sys, host: nat, isRead: bool, addr: nat, words: nat)
    requires TimingOk(s) && ChannelsOk(s) && host < HOSTS && words >= 1
    requires s.rd.slots[host].None? && s.wr.slots[host].None?
    ensures s.mem.sdram.ratio > 0
    ensures var s' := Send(s, host, isRead, addr, words);
      var r := Req(host, isRead, addr, words, s.nextUid);
      && TimingOk(s') && ChannelsOk(s')
      && s'.rd.slots == (if isRead then s.rd.slots[host := Some(r)] else s.rd.slots)
      && s'.wr.slots == (if isRead then s.wr.slots else s.wr.slots[host := Some(r)])
      && s'.rd.accepted == s.rd.accepted + (if isRead then [r] else [])
      && s'.wr.accepted == s.wr.accepted + (if isRead then [] else [r])
      && s' == s.(rd := s'.rd, wr := s'.wr, mem := s'.mem, nextUid := s.nextUid + 1)
  {
    hide ChannelOk, LatOf;
    var r := Req(host, isRead, addr, words, s.nextUid);
    if isRead {
      AcceptTiming(s.mem, s.rd, s.wr, r, s.now, s.memDone);
      hide Timing;
      AcceptOk(s.rd, s.mem, r, s.now);
    } else {
      TimingSwap(s.mem, s.rd, s.wr, s.now, s.memDone);
      AcceptTiming(s.mem, s.wr, s.rd, r, s.now, s.memDone);
      var (c, m) := Accept(s.wr, s.mem, r, s.now);
      TimingSwap(m, c, s.rd, s.now, s.memDone);
      hide Timing;
      AcceptOk(s.wr, s.mem, r, s.now);
    }
  }

  // ---------------------------------------------------------------- completions

  /** The channel side of a read completion, before the caches look at it. */
  lemma ReadDone(s: Sys)
    requires TimingOk(s) && ChannelsOk(s) && Due(s.rd, s.now) && !s.memDone
    ensures s.mem.sdram.ratio > 0 && CanTake(s.rd)
    ensures var (c, m) := Pick(Take(s.rd, s.now).0, s.mem, s.now);
      var s' := s.(rd := c, mem := m);
      && TimingOk(s') && ChannelsOk(s') && !Due(c, s.now)
      && c.slots == s.rd.slots[s.rd.serving.value := None] && c.accepted == s.rd.accepted
  {
    TakeOk(s.rd, s.now);
    CompleteTiming(s.mem, s.rd, s.wr, s.now);
    PickOk(Take(s.rd, s.now).0, s.mem, s.now);
    PickShape(Take(s.rd, s.now).0, s.mem, s.now);
    hide Timing, SlotsOk, Pick;
  }

  lemma WriteDone(s: Sys)
    requires TimingOk(s) && ChannelsOk(s) && Due(s.wr, s.now) && !s.memDone && !Due(s.rd, s.now)
    ensures s.mem.sdram.ratio > 0 && CanTake(s.wr)
    ensures var (c, m) := Pick(Take(s.wr, s.now).0, s.mem, s.now);
      var s' := s.(wr := c, mem := m, memDone := true);
      && TimingOk(s') && ChannelsOk(s')
      && c.slots == s.wr.slots[s.wr.serving.value := None] && c.accepted == s.wr.accepted
  {
    var (c, m) := Pick(Take(s.wr, s.now).0, s.mem, s.now);
    TimingSwap(s.mem, s.rd, s.wr, s.now, false);
    TakeOk(s.wr, s.now);
    CompleteTiming(s.mem, s.wr, s.rd, s.now);
    PickOk(Take(s.wr, s.now).0, s.mem, s.now);
    PickShape(Take(s.wr, s.now).0, s.mem, s.now);
    TimingSwap(m, c, s.rd, s.now, false);
    hide SlotsOk, Pick, MemOk, FreeOk, OneOut, LensOk, IsSdram, CallbackOk;
  }

  lemma PickShape(c: Channel, m: Mem, now: nat)
    requires m.sdram.ratio > 0
    ensures var c' := Pick(c, m, now).0; c'.slots == c.slots && c'.accepted == c.accepted && c'.delivered == c.delivered
  {
    hide LatOf;
  }

  /** The waiting host takes its response; it sends nothing, and only its own flag drops. */
  lemma ReceiveInv(s: Sys, h: nat, isRead: bool)
    requires CachesOk(s) && Linked(s) && h < HOSTS
    requires if isRead then s.rd.slots[h].Some? else s.wr.slots[h].Some?
    ensures CanReceive(s, h, isRead)
    ensures var s' := Receive(s, h, isRead);
      && s' == s.(ic := s'.ic, dc := s'.dc, bypass := s'.bypass) && CachesOk(s')
      && s'.ic.rWaiting == (s.ic.rWaiting && h != 0)
      && Reading(s'.dc) == (Reading(s.dc) && !(h == 1 && isRead)) && Writing(s'.dc) == (Writing(s.dc) && !(h == 1 && !isRead))
      && s'.bypass.rBusy == (s.bypass.rBusy && !(h == 2 && isRead)) && s'.bypass.wBusy == (s.bypass.wBusy && !(h == 2 && !isRead))
      && (Quiet(s.dc) ==> Quiet(s'.dc))
  {
    hide I.Inv, P.ReadResp, BlocksOk, P.ReadRespOk;
    if h == 0 {
      I.ReadRespInv(s.ic, s.now);
      ReadRespKeeps(s.ic, s.now);
    } else if h == 1 && s.dc.Cached? {
      if isRead {
        I.ReadRespInv(s.dc.cache, s.now);
        ReadRespGood(s.dc.cache, s.now);
        ReadRespKeeps(s.dc.cache, s.now);
      } else {
        I.WriteRespInv(s.dc.cache);
        WriteRespGood(s.dc.cache);
      }
    }
  }

  lemma ReadRespKeeps(c: P.State, now: nat)
    requires P.ReadRespOk(c)
    ensures var c' := P.ReadResp(c, now);
      !c'.rWaiting && c'.wWaiting == c.wWaiting && c'.writeBack == c.writeBack && c'.cache.geo == c.cache.geo && c'.log == c.log
  {
    hide B.SetOf, B.TagOf;
  }

  lemma ReadHalfInv(s: Sys)
    requires SysInv(s) && !s.memDone
    ensures s.mem.sdram.ratio > 0 && ReadHalfOk(s) && SysInv(ReadHalf(s))
    ensures !Due(ReadHalf(s).rd, s.now)
  {
    hide AcceptedOk, I.Inv, BlocksOk, Timing, ChannelOk, Receive, CanReceive, Quiet, Pick, Reading, Writing, Take;
    RatioPositive(s);
    if Due(s.rd, s.now) {
      ReadDone(s);
      var h := s.rd.serving.value;
      ReceiveInv(s, h, true);
      var s0 := s.(rd := Take(s.rd, s.now).0);
      ReceiveFrame(s, s0, h, true);
    }
  }

  /** A response does not look at the channels. */
  lemma ReceiveFrame(s: Sys, s0: Sys, h: nat, isRead: bool)
    requires s0 == s.(rd := s0.rd, wr := s0.wr) && CanReceive(s, h, isRead)
    ensures CanReceive(s0, h, isRead)
    ensures var r, r0 := Receive(s, h, isRead), Receive(s0, h, isRead);
      r0 == s0.(ic := r.ic, dc := r.dc, bypass := r.bypass)
  {
    hide P.ReadResp, P.WriteResp, P.ReadRespOk;
  }

  lemma WriteHalfInv(s: Sys)
    requires SysInv(s) && !s.memDone && !Due(s.rd, s.now)
    ensures s.mem.sdram.ratio > 0 && WriteHalfOk(s) && SysInv(WriteHalf(s).(memDone := true))
  {
    hide AcceptedOk, I.Inv, BlocksOk, Timing, ChannelOk, Receive, CanReceive, Quiet, Pick, Reading, Writing, Take;
    RatioPositive(s);
    if Due(s.wr, s.now) {
      WriteDone(s);
      var h := s.wr.serving.value;
      ReceiveInv(s, h, false);
      var s0 := s.(wr := Take(s.wr, s.now).0);
      ReceiveFrame(s, s0, h, false);
    } else {
      NothingDue(s);
    }
  }

  lemma RatioPositive(s: Sys)
    requires TimingOk(s)
    ensures s.mem.sdram.ratio > 0
  {
  }

  lemma NothingDue(s: Sys)
    requires TimingOk(s) && ChannelsOk(s) && !Due(s.rd, s.now) && !Due(s.wr, s.now)
    ensures s.mem.sdram.ratio > 0 && TimingOk(s.(memDone := true))
  {
    RatioPositive(s);
    hide MemOk, FreeOk, SlotsOk, IsSdram;
  }

  // ---------------------------------------------------------------- cache updates

  predicate Kept(c: P.State, c': P.State) {
    && c'.writeBack == c.writeBack && c'.cache.geo == c.cache.geo
    && c'.log.accepted == c.log.accepted && |c.log.answered| <= |c'.log.answered|
  }

  lemma LookUpKept(c: P.State, now: nat)
    requires P.Shape(c) && P.Back(c).Some?
    ensures Kept(c, P.LookUp(c, now))
  {
    hide B.SetOf, B.TagOf, B.Find, B.VictimWay, B.Access, B.Probe;
    AccessGeo(c.cache, P.Back(c).value.addr, now);
  }

  lemma AccessGeo(c: B.Cache, addr: nat, now: nat)
    requires B.Shaped(c)
    ensures B.Access(c, addr, now).0.geo == c.geo
  {
    hide B.SetOf, B.TagOf, B.Find, B.VictimWay;
  }

  lemma AdvanceKept(c: P.State, now: nat)
    requires P.Shape(c)
    ensures Kept(c, P.Advance(c, now))
  {
    hide P.LookUp, P.HandleFlush, B.Find, B.Probe, P.Empty, B.SetOf, B.TagOf;
    if c.pendingFlush && P.Empty(c.pipe) {
      FlushKept(c);
    } else {
      var c1 := c.(pipe := P.ShiftPipe(c.pipe));
      if P.Back(c1).Some? { LookUpKept(c1, now); }
    }
  }

  lemma FlushKept(c: P.State)
    ensures Kept(c, P.HandleFlush(c))
  {
  }

  /** What an update leaves alone, and the length of the request it may send. */
  lemma UpdateKept(c: P.State, now: nat)
    requires P.UpdateOk(c)
    ensures Kept(c, P.Update(c, now).state)
    ensures P.Update(c, now).sent.Some? ==> P.Update(c, now).sent.value.words == c.cache.geo.lineBytes / 4
  {
    hide P.LookUp, P.Advance;
    if P.Back(c).None? {
      AdvanceKept(c, now);
    } else {
      P.LookUpShape(c, now);
      LookUpKept(c, now);
      var c1 := if P.Back(c).value.way.None? then P.LookUp(c, now) else c;
      if P.LineOf(c1, P.Back(c1).value).valid {
        P.HandleHitShape(c1);
        AdvanceKept(P.HandleHit(c1), now);
      }
    }
  }

  /** All that the system needs to know about an update of the instruction cache. */
  lemma IcUpdate(c: P.State, now: nat)
    requires I.Inv(c) && P.Awake(c) && !c.writeBack
    ensures P.UpdateOk(c)
    ensures var r := P.Update(c, now);
      && I.Inv(r.state) && Kept(c, r.state) && !r.state.wWaiting
      && (r.sent.Some? ==> r.sent.value.isRead && r.sent.value.words == c.cache.geo.lineBytes / 4 && !c.rWaiting && r.state.rWaiting)
      && (r.sent.None? ==> r.state.rWaiting == c.rWaiting)
  {
    I.UpdateInv(c, now);
    UpdateKept(c, now);
    hide P.Update, I.EntryOk, I.LogOk, I.CleanOk;
  }

  /** What a request does to the link between hosts and slots. */
  lemma LinkedSend(s: Sys, s': Sys, host: nat, isRead: bool, r: Req)
    requires Linked(s) && host < HOSTS && Starts(s, s', host, isRead)
    requires s'.rd.slots == (if isRead then s.rd.slots[host := Some(r)] else s.rd.slots)
    requires s'.wr.slots == (if isRead then s.wr.slots else s.wr.slots[host := Some(r)])
    ensures Linked(s')
  {
    hide Reading, Writing;
  }

  /** The slots of a host that waits for nothing are free. */
  lemma HostFree(s: Sys, host: nat)
    requires Linked(s) && host < HOSTS
    requires match host
      case 0 => !s.ic.rWaiting
      case 1 => !Reading(s.dc) && !Writing(s.dc)
      case _ => !s.bypass.rBusy && !s.bypass.wBusy
    ensures s.rd.slots[host].None? && s.wr.slots[host].None?
  {
  }

  /** The records of both channels after a request to the right device. */
  lemma RecordsSend(s: Sys, isRead: bool, r: Req)
    requires AcceptedOk(s.rd.accepted, s.nextUid) && AcceptedOk(s.wr.accepted, s.nextUid) && r.uid == s.nextUid
    requires (r.host == 1 ==> IsSdram(r)) && (r.host == 2 ==> !IsSdram(r))
    ensures AcceptedOk(s.rd.accepted + (if isRead then [r] else []), s.nextUid + 1)
    ensures AcceptedOk(s.wr.accepted + (if isRead then [] else [r]), s.nextUid + 1)
  {
    hide IsSdram;
    assert s.rd.accepted + [] == s.rd.accepted && s.wr.accepted + [] == s.wr.accepted;
  }

  /** Flags before and after a request of this host. */
  predicate Starts(s: Sys, s': Sys, host: nat, isRead: bool) {
    && (s'.ic.rWaiting == (s.ic.rWaiting || host == 0)) && (host == 0 ==> isRead && !s.ic.rWaiting)
    && (if host == 1 then !Reading(s.dc) && !Writing(s.dc) && Reading(s'.dc) == isRead && Writing(s'.dc) == !isRead
        else Reading(s'.dc) == Reading(s.dc) && Writing(s'.dc) == Writing(s.dc))
    && (if host == 2 then !s.bypass.rBusy && !s.bypass.wBusy && s'.bypass.rBusy == isRead && s'.bypass.wBusy == !isRead
        else s'.bypass == s.bypass)
  }

  /** A host that waits for nothing sends one request. */
  lemma SendStep(s: Sys, s': Sys, host: nat, isRead: bool, addr: nat, words: nat)
    requires SysInv(s) && host < HOSTS && words >= 1 && s.mem.sdram.ratio > 0
    requires s' == Send(s, host, isRead, addr, words).(ic := s'.ic, dc := s'.dc, bypass := s'.bypass)
    requires CachesOk(s') && SerialOk(s') && Starts(s, s', host, isRead)
    requires (host == 1 ==> DeviceOf(addr) == SDRAM) && (host == 2 ==> DeviceOf(addr) != SDRAM)
    ensures SysInv(s')
  {
    hide CachesOk, SerialOk, Timing, ChannelOk, Reading, Writing, AcceptedOk, Send, DeviceOf;
    var r := Req(host, isRead, addr, words, s.nextUid);
    HostFree(s, host);
    SendInv(s, host, isRead, addr, words);
    RecordsSend(s, isRead, r);
    LinkedSend(s, s', host, isRead, r);
  }

  /** A cache update that sends nothing. */
  lemma SilentStep(s: Sys, s': Sys)
    requires SysInv(s) && s' == s.(ic := s'.ic, dc := s'.dc, bypass := s'.bypass)
    requires CachesOk(s') && SerialOk(s')
    requires s'.ic.rWaiting == s.ic.rWaiting && Reading(s'.dc) == Reading(s.dc) && Writing(s'.dc) == Writing(s.dc) && s'.bypass == s.bypass
    ensures SysInv(s')
  {
    hide CachesOk, SerialOk, Timing, ChannelOk, Reading, Writing, AcceptedOk;
  }

  lemma IcTickInv(s: Sys)
    requires SysInv(s) && P.Awake(s.ic)
    ensures s.mem.sdram.ratio > 0 && P.UpdateOk(s.ic)
    ensures var r := P.Update(s.ic, s.now); SendOk(s, 0, r.sent) && SysInv(SendMaybe(s, 0, r.sent).(ic := r.state))
  {
    hide I.Inv, BlocksOk, TimingOk, ChannelOk, P.Update, P.UpdateOk, P.Awake, Send, Quiet, Reading, Writing, AcceptedOk, Linked, DeviceOf;
    IcUpdate(s.ic, s.now);
    RatioPositive(s);
    var r := P.Update(s.ic, s.now);
    var s' := SendMaybe(s, 0, r.sent).(ic := r.state);
    SendFrame(s, 0, r.sent);
    if r.sent.Some? { HostFree(s, 0); SendStep(s, s', 0, true, r.sent.value.addr, r.sent.value.words); } else { SilentStep(s, s'); }
  }

  lemma SendFrame(s: Sys, host: nat, q: Option<P.MemReq>)
    requires s.mem.sdram.ratio > 0 && |s.rd.slots| == |s.wr.slots| == HOSTS && host < HOSTS
    ensures var s' := SendMaybe(s, host, q); s'.ic == s.ic && s'.dc == s.dc && s'.bypass == s.bypass
  {
    hide Accept;
  }

  /** All that the system needs to know about an update of the data cache. */
  lemma DcUpdate(c: P.State, now: nat)
    requires I.Inv(c) && P.Awake(c) && BlocksOk(c)
    ensures P.UpdateOk(c)
    ensures var r := P.Update(c, now);
      && I.Inv(r.state) && Kept(c, r.state) && BlocksOk(r.state) && (Quiet(Cached(c)) ==> Quiet(Cached(r.state)))
      && !(r.state.rWaiting && r.state.wWaiting)
      && (r.sent.Some? ==>
            && Good(r.sent.value.addr) && r.sent.value.words == c.cache.geo.lineBytes / 4
            && !c.rWaiting && !c.wWaiting
            && r.state.rWaiting == r.sent.value.isRead && r.state.wWaiting == !r.sent.value.isRead)
      && (r.sent.None? ==> r.state.rWaiting == c.rWaiting && r.state.wWaiting == c.wWaiting)
  {
    I.UpdateInv(c, now);
    UpdateKept(c, now);
    UpdateGood(c, now);
    var r := P.Update(c, now);
    QuietStays(c, r.state);
    NotBoth(c);
    NotBoth(r.state);
    hide P.Update, I.Inv, BlocksOk, Quiet;
  }

  lemma NotBoth(c: P.State)
    requires I.Inv(c)
    ensures !(c.rWaiting && c.wWaiting)
  {
    hide I.EntryOk, I.LogOk, I.CleanOk;
  }

  lemma DcTickInv(s: Sys)
    requires SysInv(s) && s.dc.Cached? && P.Awake(s.dc.cache)
    ensures s.mem.sdram.ratio > 0 && P.UpdateOk(s.dc.cache)
    ensures var r := P.Update(s.dc.cache, s.now); SendOk(s, 1, r.sent) && SysInv(SendMaybe(s, 1, r.sent).(dc := Cached(r.state)))
  {
    hide I.Inv, BlocksOk, TimingOk, ChannelOk, P.Update, P.UpdateOk, P.Awake, Send, Good, AcceptedOk, Linked, DeviceOf, Quiet;
    var d := s.dc.cache;
    DcUpdate(d, s.now);
    RatioPositive(s);
    var r := P.Update(d, s.now);
    var s' := SendMaybe(s, 1, r.sent).(dc := Cached(r.state));
    SendFrame(s, 1, r.sent);
    if r.sent.Some? {
      GoodIsSdram(r.sent.value.addr);
      HostFree(s, 1);
      SendStep(s, s', 1, r.sent.value.isRead, r.sent.value.addr, r.sent.value.words);
    } else {
      SilentStep(s, s');
    }
  }

  lemma GoodIsSdram(addr: nat)
    requires Good(addr)
    ensures DeviceOf(addr) == SDRAM
  {
    CacheableIffSdram(addr);
  }

  /** An update takes no request in, so a cache that owed no answer owes none after it. */
  lemma QuietStays(c: P.State, c': P.State)
    requires I.Inv(c) && I.Inv(c') && Kept(c, c')
    ensures Quiet(Cached(c)) ==> Quiet(Cached(c'))
  {
    hide I.EntryOk, I.FlagsOk, I.CleanOk, I.InPipe;
  }

  lemma NothingInPipe(p: seq<Option<P.Entry>>)
    requires p != [] && p[|p| - 1].Some?
    ensures |I.InPipe(p)| > 0
  {
  }

  /** A cache that owes no answer waits for nothing. */
  lemma QuietIsIdle(c: P.State)
    requires I.Inv(c) && Quiet(Cached(c))
    ensures !c.rWaiting && !c.wWaiting
  {
    assert c.pipe != [];
    hide I.EntryOk, I.CleanOk;
    if P.Back(c).Some? { NothingInPipe(c.pipe); }
  }

  // ---------------------------------------------------------------- requests of the pipeline

  /** A ready cache waits for nothing and takes a request. */
  lemma CacheTakes(c: P.State, addr: nat, isWrite: bool, uid: nat)
    requires I.Inv(c) && P.Ready(c) && (isWrite ==> c.writeBack)
    ensures P.RequestOk(c)
    ensures var c' := P.Request(c, addr, isWrite, uid);
      I.Inv(c') && c'.rWaiting == c.rWaiting && c'.wWaiting == c.wWaiting && c'.writeBack == c.writeBack && c'.cache == c.cache
  {
    I.RequestInv(c, addr, isWrite, uid);
    hide I.Inv;
  }

  lemma FetchInv(s: Sys, pc: nat, uid: nat)
    requires SysInv(s) && P.Ready(s.ic)
    ensures P.RequestOk(s.ic) && SysInv(s.(ic := P.Request(s.ic, pc, false, uid)))
  {
    hide I.Inv, BlocksOk, Timing, ChannelOk, P.Request, P.Ready, P.RequestOk, AcceptedOk, Reading, Writing, Quiet;
    CacheTakes(s.ic, pc, false, uid);
    PipeNotEmpty(s.ic);
    SilentStep(s, s.(ic := P.Request(s.ic, pc, false, uid)));
  }

  /** Aligning an address keeps its region. */
  lemma AlignSide(addr: nat)
    ensures Align(addr) <= addr && (Isa.Cacheable(Align(addr)) <==> Isa.Cacheable(addr))
  {
  }

  /** The data cache takes a load or store only when the bypass port is quiet. */
  lemma CachedAccess(s: Sys, addr: nat, isWrite: bool, uid: nat)
    requires SysInv(s) && LsuIdle(s) && s.dc.Cached? && P.Ready(s.dc.cache) && Good(addr)
    ensures P.RequestOk(s.dc.cache)
    ensures SysInv(s.(dc := Cached(P.Request(s.dc.cache, Align(addr), isWrite, uid))))
  {
    hide I.Inv, BlocksOk, Timing, ChannelOk, P.Request, P.Ready, P.RequestOk, AcceptedOk, Align, Linked, Isa.Cacheable;
    var d := s.dc.cache;
    AlignSide(addr);
    CacheTakes(d, Align(addr), isWrite, uid);
    PipeNotEmpty(d);
    RequestGood(d, Align(addr), isWrite, uid);
    SilentStep(s, s.(dc := Cached(P.Request(d, Align(addr), isWrite, uid))));
  }

  lemma PipeNotEmpty(c: P.State)
    requires I.Inv(c)
    ensures c.pipe != []
  {
  }

  lemma BypassAccess(s: Sys, addr: nat, isWrite: bool)
    requires SysInv(s) && LsuIdle(s) && addr < 0x1_0000_0000 && !Isa.Cacheable(addr) && s.mem.sdram.ratio > 0
    ensures PortOk(s, 2, s.bypass, isWrite)
    ensures SysInv(Send(s, 2, !isWrite, Align(addr), 1).(bypass := PortBusy(s.bypass, isWrite)))
  {
    hide I.Inv, BlocksOk, Timing, ChannelOk, AcceptedOk, Align, Linked, Isa.Cacheable, Send, DeviceOf;
    AlignSide(addr);
    CacheableIffSdram(Align(addr));
    var q := P.MemReq(!isWrite, Align(addr), 1);
    var s' := Send(s, 2, !isWrite, Align(addr), 1).(bypass := PortBusy(s.bypass, isWrite));
    SendFrame(s, 2, Some(q));
    HostFree(s, 2);
    SendStep(s, s', 2, !isWrite, Align(addr), 1);
  }

  lemma UncachedAccess(s: Sys, addr: nat, isWrite: bool)
    requires SysInv(s) && LsuIdle(s) && s.dc.Uncached? && Good(addr) && s.mem.sdram.ratio > 0
    ensures PortOk(s, 1, s.dc.port, isWrite)
    ensures SysInv(Send(s, 1, !isWrite, Align(addr), 1).(dc := Uncached(PortBusy(s.dc.port, isWrite))))
  {
    hide I.Inv, BlocksOk, Timing, ChannelOk, AcceptedOk, Align, Linked, Isa.Cacheable, Send, DeviceOf;
    AlignSide(addr);
    CacheableIffSdram(Align(addr));
    var q := P.MemReq(!isWrite, Align(addr), 1);
    var s' := Send(s, 1, !isWrite, Align(addr), 1).(dc := Uncached(PortBusy(s.dc.port, isWrite)));
    SendFrame(s, 1, Some(q));
    HostFree(s, 1);
    SendStep(s, s', 1, !isWrite, Align(addr), 1);
  }

  lemma AccessInv(s: Sys, addr: nat, isWrite: bool, uid: nat)
    requires SysInv(s) && Possible(s, Event.Access(addr, isWrite, uid))
    ensures Safe(s, Event.Access(addr, isWrite, uid)) && SysInv(LsuAccess(s, addr, isWrite, uid))
  {
    RatioPositive(s);
    assert ChannelsOk(s);
    hide SysInv, LsuIdle, Send, P.Request, P.Ready, P.RequestOk, Isa.Cacheable;
    if Isa.Cacheable(addr) {
      if s.dc.Cached? { CachedAccess(s, addr, isWrite, uid); } else { UncachedAccess(s, addr, isWrite); }
    } else {
      BypassAccess(s, addr, isWrite);
    }
  }

  // ---------------------------------------------------------------- the other events

  lemma FlushAllInv(s: Sys)
    requires SysInv(s)
    ensures var dc := if s.dc.Cached? then Cached(s.dc.cache.(pendingFlush := true)) else s.dc;
      SysInv(s.(ic := s.ic.(pendingFlush := true), dc := dc))
  {
    hide I.Inv, Timing, ChannelOk, AcceptedOk, Linked, LinesGood, PipeGood, Good;
    I.FlushAllInv(s.ic);
    var dc := if s.dc.Cached? then Cached(s.dc.cache.(pendingFlush := true)) else s.dc;
    if s.dc.Cached? { I.FlushAllInv(s.dc.cache); }
    SilentStep(s, s.(ic := s.ic.(pendingFlush := true), dc := dc));
  }

  lemma ResetMem(m: Mem, now: nat)
    requires MemOk(m, now)
    ensures MemOk(m.(sdram := S.ResetStats(m.sdram), since := []), now)
    ensures forall h :: 0 <= h < HOSTS ==> FreeBy(m.(sdram := S.ResetStats(m.sdram), since := []), h, now)
  {
    DivOrder(0, now, m.sdram.ratio);
    DivUnique(0, 0, 0, m.sdram.ratio);
    hide S.DocLatency;
  }

  lemma ResetInv(s: Sys)
    requires SysInv(s)
    ensures SysInv(s.(mem := s.mem.(sdram := S.ResetStats(s.mem.sdram), since := [])))
  {
    hide ChannelOk, AcceptedOk, I.Inv, BlocksOk, Reading, Writing, Quiet, OnTime, LensOk, MemOk, Covered;
    RatioPositive(s);
    ResetMem(s.mem, s.now);
  }

  lemma AdvanceInv(s: Sys)
    requires SysInv(s) && s.memDone
    ensures SysInv(s.(now := s.now + 1, memDone := false))
  {
    hide ChannelOk, AcceptedOk, I.Inv, BlocksOk, Reading, Writing, Quiet, LensOk, S.DocLatency, Covered, IsSdram;
    RatioPositive(s);
    DivOrder(s.now, s.now + 1, s.mem.sdram.ratio);
  }

  /** Every possible event is safe and keeps the invariant. */
  lemma StepInv(s: Sys, e: Event)
    requires SysInv(s) && Possible(s, e)
    ensures Safe(s, e) && SysInv(Step(s, e))
  {
    RatioPositive(s);
    hide TimingOk, ChannelOk, CachesOk, Linked, SerialOk, AcceptedOk, ReadHalf, WriteHalf, ReadHalfOk, WriteHalfOk, Due, LsuIdle;
    hide P.Update, P.Request, P.Ready, P.Awake, P.UpdateOk, P.RequestOk, LsuAccess, SendMaybe, SendOk, PortOk, Isa.Cacheable;
    match e {
      case MemRead => ReadHalfInv(s);
      case MemWrite => WriteHalfInv(s);
      case IcTick => IcTickInv(s);
      case DcTick => DcTickInv(s);
      case Fetch(pc, uid) => FetchInv(s, pc, uid);
      case Access(addr, isWrite, uid) => AccessInv(s, addr, isWrite, uid);
      case FlushAll => FlushAllInv(s);
      case ResetStats => ResetInv(s);
      case Advance => AdvanceInv(s);
    }
  }
}

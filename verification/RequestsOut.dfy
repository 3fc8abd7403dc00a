/** Which requests leave where: loads and stores of the pipeline, misses of the caches, in addresses and words. */
module RequestsOut {
  import opened Common
  import Isa
  import C = Core
  import A = Arbiter
  import M = MemorySystem
  import P = PipeCache
  import I = PipeCacheInv
  import R = PipeCacheRuns
  import B = CacheBase
  import W = WholeSystem
  import S = Sdram

  // ---------------------------------------------------------------- caches

  /**
   What an update of a cache sends: for the request at the end of the pipe one read of a whole line at its own
   address, and before it one write of a whole line for the dirty block that was taken out last.
   */
  lemma CacheSends(s: P.State, now: nat)
    requires R.Reachable(s) && P.Awake(s)
    ensures P.UpdateOk(s)
    ensures var q := P.Update(s, now).sent;
      q.Some? ==>
        && P.Back(s).Some? && q.value.words == s.cache.geo.lineBytes / 4
        && (q.value.isRead ==> q.value.addr == P.Back(s).value.addr && s.log.dropped == s.log.written)
        && (!q.value.isRead ==> s.log.dropped == s.log.written + [q.value.addr])
  {
    hide I.Inv, R.Reachable, P.LookUp, P.HandleHit, P.Advance, P.Awake;
    R.ReachableInv(s);
    I.UpdateInv(s, now);
    R.DroppedIsWritten(s);
    if P.Back(s).Some? {
      P.LookUpShape(s, now);
      if P.Back(s).value.way.None? { FreshSendsNothing(s, now); } else { I.StableReady(s); FlagsOf(s); }
    }
  }

  lemma FlagsOf(s: P.State)
    requires I.Inv(s)
    ensures s.pipe != [] && I.FlagsOk(s)
  {
  }

  /** The update that looks a request up does not send yet. */
  lemma FreshSendsNothing(s: P.State, now: nat)
    requires I.Inv(s) && P.Awake(s) && P.UpdateOk(s) && P.Back(s).Some? && P.Back(s).value.way.None?
    ensures P.Update(s, now).sent.None?
  {
    hide P.HandleHit, P.Advance, P.Awake, B.Access, B.VictimWay, B.SetOf, B.TagOf, B.Probe, I.EntryOk, I.LogOk, I.CleanOk;
    P.LookUpShape(s, now);
  }

  // ---------------------------------------------------------------- loads and stores

  /** The regions that the data cache may hold. */
  predicate InMemory(addr: nat) {
    var top := addr / 0x1000_0000 % 16;
    top == 3 || 8 <= top <= 11
  }

  /** The request of a port: one word at the word's own address. */
  predicate WordOut(s: M.Sys, s': M.Sys, host: nat, addr: nat, isWrite: bool)
    requires |s.rd.slots| == |s.wr.slots| == 3 && host < 3
  {
    var r := Some(A.Req(host, !isWrite, addr - addr % 4, 1, s.nextUid));
    if isWrite then s'.wr.slots == s.wr.slots[host := r] && s'.rd == s.rd
    else s'.rd.slots == s.rd.slots[host := r] && s'.wr == s.wr
  }

  /** A load or store goes to the data cache, or to the port in its place, exactly if its address is in memory; otherwise to the bypass port. */
  lemma LoadStoreGoes(s: M.Sys, addr: nat, isWrite: bool, uid: nat)
    requires M.Possible(s, M.Event.Access(addr, isWrite, uid)) && M.Safe(s, M.Event.Access(addr, isWrite, uid))
    ensures var s' := M.Step(s, M.Event.Access(addr, isWrite, uid));
      && s'.ic == s.ic && s'.now == s.now
      && (!InMemory(addr) ==>
            && s'.dc == s.dc && WordOut(s, s', 2, addr, isWrite)
            && s'.bypass == (if isWrite then s.bypass.(wBusy := true) else s.bypass.(rBusy := true)))
      && (InMemory(addr) && s.dc.Uncached? ==>
            && s'.bypass == s.bypass && WordOut(s, s', 1, addr, isWrite)
            && s'.dc == M.Uncached(if isWrite then s.dc.port.(wBusy := true) else s.dc.port.(rBusy := true)))
      && (InMemory(addr) && s.dc.Cached? ==>
            && s'.bypass == s.bypass && s'.rd == s.rd && s'.wr == s.wr && s'.dc.Cached?
            && s'.dc.cache.pipe == s.dc.cache.pipe[0 := Some(P.Entry(addr - addr % 4, isWrite, uid, None))]
            && s'.dc.cache.cache == s.dc.cache.cache)
  {
    hide A.LatOf, P.Ready;
  }

  /** The load or store in Execute leaves with its own address, as a write if and only if it is a store, and only once. */
  lemma MemoryGoes(w: W.Whole)
    requires W.Possible(w, W.Event.Memory) && W.Safe(w, W.Event.Memory)
    ensures w.core.execute.Some?
    ensures var i := w.core.execute.value.inst;
      var w' := W.Step(w, W.Event.Memory);
      var sends := !w.core.log.lsuOut && w'.core.log.lsuOut;
      && (sends ==> !i.memOp.MemNone? && !w.core.execute.value.waitMem && w'.core.execute == Some(w.core.execute.value.(waitMem := true)))
      && (!sends ==> w'.sys == w.sys)
      && (sends ==>
            && var e := M.Event.Access(i.memAddr, i.memOp.MemStore?, 0);
               M.Possible(w.sys, e) && M.Safe(w.sys, e) && w'.sys == M.Step(w.sys, e))
  {
    hide M.Step, M.Possible, M.Safe, P.Ready;
  }

  /** A read of the front end goes to the instruction cache: at the address of the instruction that was launched, else at the next address it fetches. */
  lemma FetchGoes(w: W.Whole, pc: nat, q: Isa.Query)
    requires W.Possible(w, W.Event.Fetch(pc, q)) && W.Safe(w, W.Event.Fetch(pc, q))
    ensures var w' := W.Step(w, W.Event.Fetch(pc, q));
      var launched := w.core.input.Some? && w'.core.input.None?;
      if |w'.core.log.outstanding| > |w.core.log.outstanding| then
        && w.sys.ic.pipe != []
        && w'.sys.ic.pipe == w.sys.ic.pipe[0 := Some(P.Entry(if launched then w.core.input.value.inst.pc else pc, false, w.core.log.nextRid, None))]
        && w'.sys == w.sys.(ic := w'.sys.ic)
      else w'.sys == w.sys
  {
    hide C.DoFetch0, P.Ready;
  }

  /** FENCE.I asks both caches for a flush and does nothing else. */
  lemma FlushGoesToBoth(s: M.Sys)
    requires M.Possible(s, M.Event.FlushAll) && M.Safe(s, M.Event.FlushAll)
    ensures var s' := M.Step(s, M.Event.FlushAll);
      && s'.ic == s.ic.(pendingFlush := true)
      && (s.dc.Cached? ==> s'.dc == M.Cached(s.dc.cache.(pendingFlush := true)))
      && (s.dc.Uncached? ==> s'.dc == s.dc)
      && s' == s.(ic := s'.ic, dc := s'.dc)
  {
  }

  /** Resetting the statistics also restarts the SDRAM: no open row, free controllers, the first refresh at 781; the record of accesses starts over. */
  lemma ResetRestarts(s: M.Sys)
    requires M.Possible(s, M.Event.ResetStats) && M.Safe(s, M.Event.ResetStats)
    ensures var s' := M.Step(s, M.Event.ResetStats);
      && s'.mem.sdram == S.State(s.mem.sdram.ratio, [0, 0, 0], 781, map[], 0, 0, 0, 0, 0)
      && s'.mem.since == []
      && s' == s.(mem := s.mem.(sdram := s'.mem.sdram, since := []))
  {
  }
}

/** Which blocks of the pipelined cache are dirty: exactly those written since they were last taken out or flushed. */
module PipeCacheDirty {
  import opened Common
  import opened CacheBase
  import opened PipeCache
  import opened PipeCacheInv
  import opened PipeCacheRuns

  // ---------------------------------------------------------------- what memory is owed

  /**
   The blocks whose newest contents are in the cache alone, told from the outside: answering a write adds
   its block, taking a block out for its write-back removes it, and a flush that is carried out forgets all.
   */
  function Owe(owed: set<nat>, s: State, s': State): set<nat>
    requires Shape(s)
  {
    var answers := |s'.log.answered| > |s.log.answered| && Back(s).Some? && Back(s).value.isWrite;
    var a := if answers then owed + {Back(s).value.addr - Back(s).value.addr % s.cache.geo.lineBytes} else owed;
    var d := if |s'.log.dropped| > |s.log.dropped| then a - {s'.log.dropped[|s'.log.dropped| - 1]} else a;
    if s.pendingFlush && !s'.pendingFlush then {} else d
  }

  /** The set after a run from an empty cache. */
  ghost function Owed(g: Geometry, policy: Policy, depth: nat, writeBack: bool, es: seq<Event>): set<nat>
    requires GoodGeometry(g) && depth > 0 && Run(PipeCache.Init(g, policy, depth, writeBack), es).Some?
    decreases |es|
  {
    if es == [] then {}
    else
      var before := es[..|es| - 1];
      var s := Run(PipeCache.Init(g, policy, depth, writeBack), before).value;
      RunInv(g, policy, depth, writeBack, before);
      Owe(Owed(g, policy, depth, writeBack, before), s, Step(s, es[|es| - 1]))
  }

  ghost predicate Agrees(c: Cache, owed: set<nat>) {
    forall b :: DirtyBlock(c, b) <==> b in owed
  }

  // ---------------------------------------------------------------- the effect of each part of an update

  /** At most one more block has been taken out, and it was dirty. */
  predicate DropsOne(s: State, s': State) {
    var n, d := |s.log.dropped|, s'.log.dropped;
    d == s.log.dropped || (|d| == n + 1 && d == s.log.dropped + [d[n]] && DirtyBlock(s.cache, d[n]))
  }

  /** The cache half of a lookup: the blocks that are dirty after it. */
  lemma AccessExact(c: Cache, addr: nat, now: nat, b: nat)
    requires WellFormed(c)
    ensures var t := SetOf(c.geo, addr);
      DirtyBlock(Access(c, addr, now).0, b) <==> DirtyBlock(c, b) && (Probe(c, addr) || !DirtyAt(c.sets[t][VictimWay(c, t)], b))
  {
    hide SetOf, TagOf, SetOk, Find, Probe, VictimWay, Access;
    var c' := Access(c, addr, now).0;
    var si := SetOf(c.geo, addr);
    AccessOk(c, addr, now);
    if DirtyBlock(c, b) {
      var t, w :| 0 <= t < |c.sets| && 0 <= w < |c.sets[t]| && DirtyAt(c.sets[t][w], b);
      AccessKeepsOthers(c, addr, now, t, w);
      if DirtyAt(c'.sets[t][w], b) { StaysDirty(c, c', t, w, b); }
    }
    if DirtyBlock(c', b) {
      var t, w :| 0 <= t < |c'.sets| && 0 <= w < |c'.sets[t]| && DirtyAt(c'.sets[t][w], b);
      AccessKeepsOthers(c, addr, now, t, w);
      StaysDirty(c', c, t, w, b);
      if DirtyAt(c.sets[si][VictimWay(c, si)], b) { OnlyOne(c, t, w, si, VictimWay(c, si)); }
    }
  }

  lemma LookUpForm(s: State, now: nat)
    requires Shape(s) && Back(s).Some?
    ensures var s' := LookUp(s, now);
      var addr := Back(s).value.addr;
      var t := SetOf(s.cache.geo, addr);
      var victim := s.cache.sets[t][VictimWay(s.cache, t)];
      && s'.cache == Access(s.cache, addr, now).0
      && s'.log.dropped == s.log.dropped + (if !Probe(s.cache, addr) && victim.valid && victim.dirty then [victim.tag] else [])
      && s'.pendingFlush == s.pendingFlush && s'.log.answered == s.log.answered && (Probe(s.cache, addr) ==> s'.log == s.log)
      && |s'.pipe| == |s.pipe| && Back(s') == Some(Back(s).value.(way := Some(Access(s.cache, addr, now).1)))
  {
    hide SetOf, TagOf, Access, VictimWay, Probe;
    assert LookUp(s, now).pipe == s.pipe[|s.pipe| - 1 := Some(Back(s).value.(way := Some(Access(s.cache, Back(s).value.addr, now).1)))];
  }

  /** A lookup takes out at most one dirty block, records it, and leaves all others as they are. */
  lemma LookUpExact(s: State, now: nat, b: nat)
    requires Inv(s) && Back(s).Some?
    ensures var s' := LookUp(s, now);
      DropsOne(s, s') && (DirtyBlock(s'.cache, b) <==> DirtyBlock(s.cache, b) && !(s'.log.dropped == s.log.dropped + [b]))
  {
    hide SetOf, TagOf, SetOk, Find, Probe, VictimWay, Access, LookUp, LogOk, CleanOk, FlagsOk;
    var t := SetOf(s.cache.geo, Back(s).value.addr);
    var victim := s.cache.sets[t][VictimWay(s.cache, t)];
    LookUpForm(s, now);
    AccessExact(s.cache, Back(s).value.addr, now, b);
    if victim.valid && victim.dirty { StaysDirty(s.cache, s.cache, t, VictimWay(s.cache, t), victim.tag); }
    assert DropsOne(s, LookUp(s, now));
  }

  /** A block is in at most one line. */
  lemma OnlyOne(c: Cache, t: nat, w: nat, u: nat, v: nat)
    requires WellFormed(c) && t < |c.sets| && w < |c.sets[t]| && u < |c.sets| && v < |c.sets[u]|
    requires c.sets[t][w].valid && c.sets[u][v].valid && c.sets[t][w].tag == c.sets[u][v].tag
    ensures t == u && w == v
  {
    hide SetOf, TagOf;
    assert SetOk(c.geo, t, c.sets[t]) && SetOk(c.geo, u, c.sets[u]);
  }

  /** The line of the last entry holds its block. */
  ghost predicate OnItsBlock(s: State) {
    && Shape(s) && Back(s).Some? && Back(s).value.way.Some?
    && LineOf(s, Back(s).value).valid && LineOf(s, Back(s).value).tag == TagOf(s.cache.geo, Back(s).value.addr)
  }

  lemma LookUpOnBlock(s: State, now: nat)
    requires Inv(s) && Back(s).Some?
    ensures Shape(LookUp(s, now)) && Back(LookUp(s, now)).Some? && Back(LookUp(s, now)).value.way.Some?
    ensures var s1 := if Back(s).value.way.None? then LookUp(s, now) else s;
      && s1.cache.geo == s.cache.geo && s1.pendingFlush == s.pendingFlush && s1.log.answered == s.log.answered
      && Back(s1).value.addr == Back(s).value.addr && Back(s1).value.isWrite == Back(s).value.isWrite
      && (LineOf(s1, Back(s1).value).valid ==> OnItsBlock(s1) && s1.log == s.log)
  {
    hide SetOf, TagOf, SetOk, Find, VictimWay, Access, Probe, LookUp, LogOk, CleanOk, FlagsOk;
    LookUpForm(s, now);
    LookUpShape(s, now);
    AccessOk(s.cache, Back(s).value.addr, now);
  }

  /** Answering a write makes its block dirty; answering a read makes nothing dirty. */
  lemma HitExact(s: State, b: nat)
    requires OnItsBlock(s)
    ensures var e := Back(s).value;
      DirtyBlock(HandleHit(s).cache, b) <==> DirtyBlock(s.cache, b) || (e.isWrite && b == TagOf(s.cache.geo, e.addr))
  {
    hide SetOf, TagOf;
    var e := Back(s).value;
    var c, c' := s.cache, HandleHit(s).cache;
    var t, w := SetOf(c.geo, e.addr), e.way.value;
    if DirtyBlock(c, b) { HitDirty(s, b); }
    if e.isWrite && b == TagOf(c.geo, e.addr) { StaysDirty(c', c', t, w, b); }
    if DirtyBlock(c', b) {
      var u, v :| 0 <= u < |c'.sets| && 0 <= v < |c'.sets[u]| && DirtyAt(c'.sets[u][v], b);
      if c'.sets[u][v] == c.sets[u][v] { StaysDirty(c, c, u, v, b); }
    }
  }

  /** The second half of an update: a flush leaves nothing dirty, anything else takes out at most what it records. */
  lemma AdvanceExact(s: State, now: nat, b: nat)
    requires Inv(s) && Back(s).None?
    ensures var s' := Advance(s, now);
      && s'.log.answered == s.log.answered
      && (if s.pendingFlush && Empty(s.pipe) then
            !s'.pendingFlush && s'.log.dropped == s.log.dropped && !DirtyBlock(s'.cache, b)
          else
            && s'.pendingFlush == s.pendingFlush
            && DropsOne(s, s')
            && (DirtyBlock(s'.cache, b) <==> DirtyBlock(s.cache, b) && s'.log.dropped != s.log.dropped + [b]))
  {
    hide Inv, LookUp, DirtyBlock, Probe, InvalidateAll, Empty;
    if s.pendingFlush && Empty(s.pipe) {
      NothingDirty(s.cache, b);
    } else {
      ShiftInv(s);
      var s1 := s.(pipe := ShiftPipe(s.pipe));
      if Back(s1).Some? && Back(s1).value.way.None? && !Probe(s1.cache, Back(s1).value.addr) {
        LookUpExact(s1, now, b);
        LookUpForm(s1, now);
      }
    }
  }

  // ---------------------------------------------------------------- every event

  lemma HitLog(s: State)
    requires Shape(s) && Back(s).Some? && Back(s).value.way.Some?
    ensures var s' := HandleHit(s);
      |s'.log.answered| == |s.log.answered| + 1 && s'.log.dropped == s.log.dropped && s'.pendingFlush == s.pendingFlush
  {
  }

  lemma MissKeeps(s: State)
    requires Shape(s) && Back(s).Some?
    ensures var s' := MissStep(s).state;
      s'.log.answered == s.log.answered && s'.log.dropped == s.log.dropped && s'.cache == s.cache && s'.pendingFlush == s.pendingFlush
  {
  }

  /** One update against the set: the block of an answered write comes in, a dropped block goes out. */
  lemma UpdateExact(s: State, now: nat, owed: set<nat>, b: nat)
    requires Inv(s) && UpdateOk(s) && Awake(s) && Agrees(s.cache, owed)
    ensures DirtyBlock(Update(s, now).state.cache, b) <==> b in Owe(owed, s, Update(s, now).state)
  {
    hide Inv, DirtyBlock, Advance, HandleHit, LookUp, Probe, Empty, SetOf, MissStep, Awake;
    if Back(s).None? {
      AdvanceExact(s, now, b);
    } else {
      LookUpOnBlock(s, now);
      var s1 := if Back(s).value.way.None? then LookUp(s, now) else s;
      if Back(s).value.way.None? { LookUpReady(s, now); LookUpExact(s, now, b); } else { StableReady(s); }
      if LineOf(s1, Back(s1).value).valid {
        HandleHitShape(s1);
        HandleHitInv(s1);
        HitLog(s1);
        HitExact(s1, b);
        AdvanceExact(HandleHit(s1), now, b);
      } else {
        MissKeeps(s1.(isReplay := false));
      }
    }
  }

  /** A refill makes nothing dirty and cleans nothing. */
  lemma RefillExact(s: State, now: nat, b: nat)
    requires Inv(s) && s.rWaiting
    ensures ReadRespOk(s) && (DirtyBlock(ReadResp(s, now).cache, b) <==> DirtyBlock(s.cache, b))
  {
    hide SetOf, TagOf, SetOk, Find, Touch, LogOk, CleanOk;
    ReadRespInv(s, now);
    var e := Back(s).value;
    var c, c' := s.cache, ReadResp(s, now).cache;
    FillSets(c, e.addr, e.way.value, now);
    if DirtyBlock(c, b) {
      var t, w :| 0 <= t < |c.sets| && 0 <= w < |c.sets[t]| && DirtyAt(c.sets[t][w], b);
      StaysDirty(c, c', t, w, b);
    }
    if DirtyBlock(c', b) {
      var t, w :| 0 <= t < |c'.sets| && 0 <= w < |c'.sets[t]| && DirtyAt(c'.sets[t][w], b);
      StaysDirty(c', c, t, w, b);
    }
  }

  lemma StepExact(s: State, e: Event, owed: set<nat>, b: nat)
    requires Inv(s) && Possible(s, e) && AssertsHold(s, e) && Agrees(s.cache, owed)
    ensures DirtyBlock(Step(s, e).cache, b) <==> b in Owe(owed, s, Step(s, e))
  {
    hide Inv, DirtyBlock, Update, ReadResp, Awake;
    match e {
      case Tick(now) => UpdateExact(s, now, owed, b);
      case Refilled(now) => RefillExact(s, now, b); RefillLog(s, now);
      case _ =>
    }
  }

  lemma RefillLog(s: State, now: nat)
    requires ReadRespOk(s)
    ensures ReadResp(s, now).log == s.log && ReadResp(s, now).pendingFlush == s.pendingFlush
  {
  }

  // ---------------------------------------------------------------- main results

  /** In every reachable state the dirty blocks are exactly the ones that memory is owed. */
  lemma {:induction false} DirtyIsOwed(g: Geometry, policy: Policy, depth: nat, writeBack: bool, es: seq<Event>, b: nat)
    requires GoodGeometry(g) && depth > 0 && Run(PipeCache.Init(g, policy, depth, writeBack), es).Some?
    ensures DirtyBlock(Run(PipeCache.Init(g, policy, depth, writeBack), es).value.cache, b) <==> b in Owed(g, policy, depth, writeBack, es)
    decreases |es|
  {
    hide Inv, DirtyBlock, Step, Possible, AssertsHold, Owe;
    if es == [] {
      NothingAtStart(g, policy, writeBack && g.assoc > 1, b);
    } else {
      var before := es[..|es| - 1];
      var s := Run(PipeCache.Init(g, policy, depth, writeBack), before).value;
      RunInv(g, policy, depth, writeBack, before);
      forall x ensures DirtyBlock(s.cache, x) <==> x in Owed(g, policy, depth, writeBack, before) {
        DirtyIsOwed(g, policy, depth, writeBack, before, x);
      }
      StepExact(s, es[|es| - 1], Owed(g, policy, depth, writeBack, before), b);
    }
  }

  lemma NothingAtStart(g: Geometry, policy: Policy, lag: bool, b: nat)
    requires GoodGeometry(g)
    ensures !DirtyBlock(CacheBase.Init(g, policy, lag), b)
  {
  }

  /** What is taken out right after a hit was dirty, or has just been written. */
  lemma HitDrops(s: State, now: nat)
    requires HitReady(s) && OnItsBlock(s)
    ensures Shape(HandleHit(s))
    ensures var d := Advance(HandleHit(s), now).log.dropped;
      d != s.log.dropped ==>
        && |d| == |s.log.dropped| + 1
        && (DirtyBlock(s.cache, d[|s.log.dropped|]) || (Back(s).value.isWrite && d[|s.log.dropped|] == TagOf(s.cache.geo, Back(s).value.addr)))
    ensures |Advance(HandleHit(s), now).log.answered| > |s.log.answered|
  {
    hide Inv, DirtyBlock, Advance, HandleHit, TagOf, SetOf, HitReady, OnItsBlock, Empty;
    assert Shape(s) && Back(s).Some? && Back(s).value.way.Some? by { OnBlockShape(s); }
    HandleHitShape(s);
    HandleHitInv(s);
    HitLog(s);
    AdvanceExact(HandleHit(s), now, 0);
    var d := Advance(HandleHit(s), now).log.dropped;
    if d != s.log.dropped { HitExact(s, d[|s.log.dropped|]); }
  }

  lemma OnBlockShape(s: State)
    requires OnItsBlock(s)
    ensures Shape(s) && Back(s).Some? && Back(s).value.way.Some?
  {
  }

  /** The lookup in front of an update: a hit makes nothing dirty, a miss takes out at most one dirty block. */
  lemma LookedUp(s: State, now: nat)
    requires Inv(s) && Awake(s) && Back(s).Some?
    ensures Shape(LookUp(s, now)) && Back(LookUp(s, now)).Some? && Back(LookUp(s, now)).value.way.Some?
    ensures var s1 := if Back(s).value.way.None? then LookUp(s, now) else s;
      && DropsOne(s, s1)
      && Back(s1).value.addr == Back(s).value.addr && Back(s1).value.isWrite == Back(s).value.isWrite && s1.cache.geo == s.cache.geo
      && s1.log.answered == s.log.answered
      && (LineOf(s1, Back(s1).value).valid ==>
            && HitReady(s1) && OnItsBlock(s1) && s1.log.dropped == s.log.dropped
            && forall b :: DirtyBlock(s1.cache, b) ==> DirtyBlock(s.cache, b))
  {
    hide WellFormed, Probe, SetOf, TagOf, FlagsOk, LogOk, CleanOk, DirtyBlock, LookUp, Awake, HitReady, MissReady;
    LookUpOnBlock(s, now);
    if Back(s).value.way.None? {
      LookUpReady(s, now);
      LookUpExact(s, now, 0);
      forall b | DirtyBlock(LookUp(s, now).cache, b) ensures DirtyBlock(s.cache, b) { LookUpExact(s, now, b); }
    } else {
      StableReady(s);
    }
  }

  /** Only a block that memory is owed is ever taken out for a write-back, also when its write is answered in the same update. */
  lemma OnlyOwedIsDropped(s: State, now: nat)
    requires Reachable(s) && Awake(s)
    ensures UpdateOk(s)
    ensures var s' := Update(s, now).state;
      s'.log.dropped != s.log.dropped ==>
        && |s'.log.dropped| == |s.log.dropped| + 1
        && var b := s'.log.dropped[|s.log.dropped|];
           DirtyBlock(s.cache, b)
           || (|s'.log.answered| > |s.log.answered| && Back(s).Some? && Back(s).value.isWrite
               && b == Back(s).value.addr - Back(s).value.addr % s.cache.geo.lineBytes)
  {
    hide Inv, Reachable, DirtyBlock, Advance, HandleHit, LookUp, Probe, Empty, SetOf, MissStep, Awake, HitReady, OnItsBlock;
    ReachableInv(s);
    UpdateInv(s, now);
    if Back(s).None? {
      AdvanceExact(s, now, 0);
    } else {
      LookedUp(s, now);
      var s1 := if Back(s).value.way.None? then LookUp(s, now) else s;
      if LineOf(s1, Back(s1).value).valid {
        HitDrops(s1, now);
      } else {
        MissKeeps(s1.(isReplay := false));
      }
    }
  }

  // ---------------------------------------------------------------- readiness

  lemma AdvanceReady(s: State, now: nat)
    requires Inv(s) && Back(s).None? && !s.pendingFlush && (|s.pipe| > 1 ==> s.pipe[|s.pipe| - 2].None?)
    ensures Ready(Advance(s, now))
  {
    hide Inv, LookUp, Probe, Empty;
    ShiftInv(s);
  }

  /** With no flush pending and nothing right behind it, a request that hits or is replayed leaves the cache ready for the next; so does an empty last place. */
  lemma HitLeavesReady(s: State, now: nat)
    requires Reachable(s) && Awake(s) && Shape(s) && !s.pendingFlush && (|s.pipe| > 1 ==> s.pipe[|s.pipe| - 2].None?)
    requires Back(s).Some? ==> LastHits(s)
    ensures UpdateOk(s) && Ready(Update(s, now).state) && Update(s, now).sent.None?
  {
    hide Inv, Reachable, SetOf, TagOf, Advance, LookUp, Probe, Awake, Ready, HitReady;
    ReachableInv(s);
    UpdateInv(s, now);
    if Back(s).None? {
      AdvanceReady(s, now);
    } else {
      LookedUp(s, now);
      LooksAlike(s, now);
      var s1 := if Back(s).value.way.None? then LookUp(s, now) else s;
      assert LineOf(s1, Back(s1).value).valid;
      HandleHitShape(s1);
      HandleHitInv(s1);
      LookUpFront(s, now);
      AdvanceReady(HandleHit(s1), now);
    }
  }

  lemma LookUpFront(s: State, now: nat)
    requires Shape(s) && Back(s).Some?
    ensures LookUp(s, now).pendingFlush == s.pendingFlush && |LookUp(s, now).pipe| == |s.pipe|
    ensures |s.pipe| > 1 ==> LookUp(s, now).pipe[|s.pipe| - 2] == s.pipe[|s.pipe| - 2]
  {
    hide SetOf, TagOf, Access, VictimWay, Probe, LookUp;
    LookUpPipe(s, now);
    LookUpForm(s, now);
  }

  lemma LookUpPipe(s: State, now: nat)
    requires Shape(s) && Back(s).Some?
    ensures LookUp(s, now).pipe == s.pipe[|s.pipe| - 1 := Some(Back(s).value.(way := Some(Access(s.cache, Back(s).value.addr, now).1)))]
  {
    hide SetOf, TagOf, Access, VictimWay, Probe;
  }

  // ---------------------------------------------------------------- a pending flush

  lemma LookUpAccepts(s: State, now: nat)
    requires Shape(s) && Back(s).Some?
    ensures LookUp(s, now).log.accepted == s.log.accepted
  {
    hide SetOf, TagOf, Access, VictimWay, Probe;
  }

  /** Only a request of the CPU is accepted. */
  lemma UpdateAccepts(s: State, now: nat)
    requires UpdateOk(s)
    ensures Update(s, now).state.log.accepted == s.log.accepted
  {
    hide LookUp, SetOf, TagOf, Probe, Empty, ShiftPipe;
    if Back(s).Some? {
      LookUpShape(s, now);
      LookUpAccepts(s, now);
      var s1 := if Back(s).value.way.None? then LookUp(s, now) else s;
      if LineOf(s1, Back(s1).value).valid {
        HandleHitShape(s1);
        AdvanceAccepts(HandleHit(s1), now);
      }
    } else {
      AdvanceAccepts(s, now);
    }
  }

  lemma AdvanceAccepts(s: State, now: nat)
    requires Shape(s)
    ensures Advance(s, now).log.accepted == s.log.accepted
  {
    hide LookUp, SetOf, TagOf, Probe, Empty;
    var s1 := s.(pipe := ShiftPipe(s.pipe));
    if Back(s1).Some? { LookUpAccepts(s1, now); }
  }

  /** A flush is pending from the start of the run to its end. */
  predicate Flushing(s: State, es: seq<Event>)
    decreases |es|
  {
    && (es == [] || Flushing(s, es[..|es| - 1]))
    && match Run(s, es)
       case None => false
       case Some(t) => t.pendingFlush
  }

  /** While a flush is pending no request is accepted, so the pipe drains and the flush is not put off. */
  lemma {:induction false} FlushAcceptsNothing(s: State, es: seq<Event>)
    requires Flushing(s, es)
    ensures Run(s, es).value.log.accepted == s.log.accepted
    decreases |es|
  {
    hide Update, ReadResp, ReadRespOk, UpdateOk, Awake;
    if es != [] {
      var t, e := Run(s, es[..|es| - 1]).value, es[|es| - 1];
      FlushAcceptsNothing(s, es[..|es| - 1]);
      match e {
        case Tick(now) => UpdateAccepts(t, now);
        case Refilled(now) => RefillLog(t, now);
        case _ =>
      }
    }
  }
}

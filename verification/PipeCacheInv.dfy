/** The miss protocol of the cache as an invariant over all its operations. */
module PipeCacheInv {
  import opened Common
  import opened CacheBase
  import opened PipeCache

  /** Requests in the pipe, oldest first. */
  function InPipe(p: seq<Option<Entry>>): seq<nat> {
    if p == [] then []
    else
      var last := p[|p| - 1];
      (if last.Some? then [last.value.uid] else []) + InPipe(p[..|p| - 1])
  }

  /** The entry at the end of the pipe waits for its block. */
  predicate Missing(s: State) {
    Shape(s) && Back(s).Some? && Back(s).value.way.Some? && !LineOf(s, Back(s).value).valid
  }

  /** Only the last entry has been looked up; it is either waiting for its block or about to be replayed on it. */
  ghost predicate EntryOk(s: State) {
    && WellFormed(s.cache) && Shape(s)
    && (forall i :: 0 <= i < |s.pipe| - 1 && s.pipe[i].Some? ==> s.pipe[i].value.way.None?)
    && (Back(s).Some? && Back(s).value.way.Some? ==>
          var e := Back(s).value;
          if s.isReplay && !s.rWaiting then LineOf(s, e).valid && LineOf(s, e).tag == TagOf(s.cache.geo, e.addr)
          else !LineOf(s, e).valid && !Probe(s.cache, e.addr))
  }

  /** Which of the flags can be up together. */
  predicate FlagsOk(s: State)
    requires s.pipe != []
  {
    var looked := Back(s).Some? && Back(s).value.way.Some?;
    && (s.rWaiting ==> s.isReplay)
    && (s.isReplay ==> looked && !s.pendingFill)
    && (looked && !s.isReplay ==> s.pendingFill)
    && (s.pendingFill ==> looked)
    && (s.wWaiting ==> s.pendingFill && !s.pendingEvict && s.writeBack)
    && (!s.writeBack ==> !s.pendingEvict)
    && (s.isShifted ==> s.pipe[0].None?)
  }

  predicate LogOk(s: State) {
    && s.log.accepted == s.log.answered + InPipe(s.pipe)
    && s.log.misses == s.log.refills + (if s.pendingFill then 1 else 0)
    && s.log.refills == s.log.replays + (if s.isReplay then 1 else 0)
    && s.log.evictsNow <= (if s.pendingFill && s.pendingEvict then 0 else 1)
    && s.log.dropped == s.log.written + (if s.pendingFill && s.pendingEvict then [s.evictAddr] else [])
  }

  /** A cache that does not write back takes reads only and never has a dirty line. */
  ghost predicate CleanOk(s: State) {
    !s.writeBack ==>
      && (forall i :: 0 <= i < |s.pipe| && s.pipe[i].Some? ==> !s.pipe[i].value.isWrite)
      && (forall t, w :: 0 <= t < |s.cache.sets| && 0 <= w < |s.cache.sets[t]| ==> !s.cache.sets[t][w].dirty)
  }

  ghost predicate Inv(s: State) {
    EntryOk(s) && FlagsOk(s) && LogOk(s) && CleanOk(s)
  }

  // ---------------------------------------------------------------- the pipe as a queue

  lemma InPipeFront(p: seq<Option<Entry>>, e: Entry)
    requires p != [] && p[0].None?
    ensures InPipe(p[0 := Some(e)]) == InPipe(p) + [e.uid]
  {
    if |p| > 1 {
      var n := |p| - 1;
      assert p[0 := Some(e)][..n] == p[..n][0 := Some(e)];
      InPipeFront(p[..n], e);
    } else {
      assert p[0 := Some(e)][..0] == [] && p[..0] == [];
    }
  }

  lemma InPipeNone(p: seq<Option<Entry>>)
    ensures InPipe([None] + p) == InPipe(p)
  {
    if p != [] {
      assert ([None] + p)[..|p|] == [None] + p[..|p| - 1];
      InPipeNone(p[..|p| - 1]);
    }
  }

  lemma InPipeShift(p: seq<Option<Entry>>)
    requires p != [] && p[|p| - 1].None?
    ensures InPipe(ShiftPipe(p)) == InPipe(p)
  {
    if |p| > 1 { InPipeNone(p[..|p| - 1]); }
  }

  lemma InPipeBack(p: seq<Option<Entry>>, e: Option<Entry>)
    requires p != []
    ensures InPipe(p[|p| - 1 := e]) == (if e.Some? then [e.value.uid] else []) + InPipe(p[..|p| - 1])
  {
    assert p[|p| - 1 := e][..|p| - 1] == p[..|p| - 1];
  }

  lemma InPipeEmpty(p: seq<Option<Entry>>)
    requires Empty(p)
    ensures InPipe(p) == []
  {
  }

  // ---------------------------------------------------------------- operations

  lemma InitInv(g: Geometry, policy: Policy, depth: nat, writeBack: bool)
    requires GoodGeometry(g) && depth > 0
    ensures Inv(PipeCache.Init(g, policy, depth, writeBack))
  {
    hide SetOf, TagOf, SetOk;
    InPipeEmpty(seq(depth, _ => None));
  }

  /** A ready cache can take a request. */
  lemma RequestInv(s: State, addr: nat, isWrite: bool, uid: nat)
    requires Inv(s) && Ready(s) && (isWrite ==> s.writeBack)
    ensures RequestOk(s) && Inv(Request(s, addr, isWrite, uid))
  {
    hide SetOf, TagOf, WellFormed, Find;
    InPipeFront(s.pipe, Entry(addr, isWrite, uid, None));
  }

  /** The log after a lookup that missed: a dirty victim has been saved, whatever set the lag looked at. */
  lemma LookUpMissLog(s: State, now: nat)
    requires Inv(s) && Back(s).Some? && Back(s).value.way.None? && !Probe(s.cache, Back(s).value.addr)
    ensures var s' := LookUp(s, now);
      && s'.log.accepted == s'.log.answered + InPipe(s'.pipe)
      && s'.log.misses == s'.log.refills + 1 && s'.log.refills == s'.log.replays
      && s'.log.dropped == s'.log.written + (if s'.pendingEvict then [s'.evictAddr] else [])
      && s'.log.evictsNow == 0
      && (!s'.writeBack ==> !s'.pendingEvict)
  {
    hide SetOf, TagOf, WellFormed, Find, VictimWay, Access;
    InPipeBack(s.pipe, Back(LookUp(s, now)));
    InPipeBack(s.pipe, Back(s));
    assert s.pipe[|s.pipe| - 1 := Back(s)] == s.pipe;
  }

  /** The entry after a lookup that missed: its way is empty, and nothing else in the set changed. */
  lemma LookUpMissEntry(s: State, now: nat)
    requires Inv(s) && Back(s).Some? && Back(s).value.way.None? && !Probe(s.cache, Back(s).value.addr)
    ensures var s' := LookUp(s, now);
      EntryOk(s') && Missing(s') && CleanOk(s')
  {
    hide SetOf, TagOf, SetOk, Find, VictimWay, LogOk;
    AccessOk(s.cache, Back(s).value.addr, now);
  }

  /** A lookup that hit. */
  lemma LookUpHit(s: State, now: nat)
    requires Inv(s) && Back(s).Some? && Back(s).value.way.None? && Probe(s.cache, Back(s).value.addr)
    ensures var s' := LookUp(s, now);
      && WellFormed(s'.cache) && Shape(s') && Back(s').Some? && Back(s').value.way.Some? && !Missing(s')
      && s'.log == s.log && CleanOk(s')
      && s' == s.(cache := s'.cache, pendingEvict := s'.pendingEvict, evictAddr := s'.evictAddr,
                  pipe := s.pipe[|s.pipe| - 1 := Some(Back(s).value.(way := Back(s').value.way))])
      && (!s'.writeBack ==> !s'.pendingEvict)
  {
    hide SetOf, TagOf, SetOk, Find, VictimWay, LogOk;
    AccessOk(s.cache, Back(s).value.addr, now);
    if !s.writeBack { AccessKeepsClean(s.cache, Back(s).value.addr, now); }
  }

  lemma AccessKeepsClean(c: Cache, addr: nat, now: nat)
    requires WellFormed(c)
    requires forall t, w :: 0 <= t < |c.sets| && 0 <= w < |c.sets[t]| ==> !c.sets[t][w].dirty
    ensures var c' := Access(c, addr, now).0;
      forall t, w :: 0 <= t < |c'.sets| && 0 <= w < |c'.sets[t]| ==> !c'.sets[t][w].dirty
  {
    hide SetOf, TagOf, SetOk, VictimWay;
  }

  /** A miss whose block has not been asked for yet; `pendingEvict` says whether a dirty victim is still to be written. */
  ghost predicate MissReady(s: State) {
    && EntryOk(s) && Missing(s) && CleanOk(s)
    && !s.isReplay && !s.rWaiting
    && (s.wWaiting ==> s.pendingFill && !s.pendingEvict && s.writeBack)
    && (!s.writeBack ==> !s.pendingEvict)
    && (s.isShifted ==> s.pipe[0].None?)
    && s.log.accepted == s.log.answered + InPipe(s.pipe)
    && s.log.misses == s.log.refills + 1 && s.log.refills == s.log.replays
    && s.log.evictsNow <= (if s.pendingEvict then 0 else 1)
    && s.log.dropped == s.log.written + (if s.pendingEvict then [s.evictAddr] else [])
  }

  /**
   One step of the miss path. A request goes out only when none is out; a write carries the saved victim, a
   read the missing address, and the read comes after the write has been answered.
   */
  lemma MissStepInv(s: State)
    requires MissReady(s)
    ensures var r := MissStep(s);
      && Inv(r.state)
      && (r.sent.Some? ==> !s.wWaiting && s.pendingFill)
      && (r.sent.Some? && r.sent.value.isRead ==> r.state.rWaiting && !r.state.wWaiting && !s.pendingEvict && r.sent.value.addr == Back(s).value.addr)
      && (r.sent.Some? && !r.sent.value.isRead ==> r.state.wWaiting && !r.state.rWaiting && s.pendingEvict && r.sent.value.addr == s.evictAddr)
      && (r.sent.None? ==> r.state.rWaiting == s.rWaiting && r.state.wWaiting == s.wWaiting)
      && r.state.cache == s.cache
  {
    hide SetOf, TagOf, WellFormed, Find, InPipe;
  }

  /** A looked-up entry on a valid line: a hit, or the replay of a miss. */
  ghost predicate HitReady(s: State) {
    && WellFormed(s.cache) && Shape(s) && CleanOk(s)
    && Back(s).Some? && Back(s).value.way.Some? && !Missing(s)
    && (forall i :: 0 <= i < |s.pipe| - 1 && s.pipe[i].Some? ==> s.pipe[i].value.way.None?)
    && !s.rWaiting && !s.wWaiting && !s.pendingFill
    && (!s.writeBack ==> !s.pendingEvict)
    && (s.isShifted ==> s.pipe[0].None?)
    && s.log.accepted == s.log.answered + InPipe(s.pipe)
    && s.log.misses == s.log.refills && s.log.refills == s.log.replays + (if s.isReplay then 1 else 0)
    && s.log.evictsNow <= 1 && s.log.dropped == s.log.written
  }

  lemma HandleHitInv(s: State)
    requires HitReady(s)
    ensures Inv(HandleHit(s)) && Back(HandleHit(s)).None?
  {
    hide SetOf, TagOf, SetOk, Find;
    var s' := HandleHit(s);
    var e := Back(s).value;
    InPipeBack(s.pipe, None);
    InPipeBack(s.pipe, Back(s));
    assert s.pipe[|s.pipe| - 1 := Back(s)] == s.pipe;
    assert s'.log.accepted == s'.log.answered + InPipe(s'.pipe);
    if e.isWrite { DirtyOk(s.cache, SetOf(s.cache.geo, e.addr), e.way.value); }
  }

  lemma DirtyOk(c: Cache, t: nat, w: nat)
    requires WellFormed(c) && t < c.geo.sets && w < c.geo.assoc
    ensures WellFormed(SetDirty(c, t, w))
  {
    hide SetOf, TagOf;
    assert SetOk(c.geo, t, c.sets[t]);
    WithLineOk(c, t, w, c.sets[t][w].(dirty := true));
  }

  lemma FlushOk(c: Cache)
    requires WellFormed(c)
    ensures WellFormed(InvalidateAll(c)) && InvalidateAll(c).geo == c.geo
  {
    hide SetOf, TagOf;
  }

  lemma HandleFlushInv(s: State)
    requires Inv(s) && Empty(s.pipe)
    ensures Inv(HandleFlush(s)) && HandleFlush(s).rWaiting == s.rWaiting && HandleFlush(s).wWaiting == s.wWaiting
  {
    hide SetOf, TagOf, SetOk, Find, InvalidateAll, InPipe;
    assert Back(s).None?;
    FlushOk(s.cache);
    InPipeEmpty(s.pipe);
    InPipeEmpty(HandleFlush(s).pipe);
    if !s.writeBack { FlushKeepsClean(s.cache); }
  }

  lemma FlushKeepsClean(c: Cache)
    requires forall t, w :: 0 <= t < |c.sets| && 0 <= w < |c.sets[t]| ==> !c.sets[t][w].dirty
    ensures var c' := InvalidateAll(c);
      forall t, w :: 0 <= t < |c'.sets| && 0 <= w < |c'.sets[t]| ==> !c'.sets[t][w].dirty
  {
  }

  lemma ShiftInv(s: State)
    requires Inv(s) && Back(s).None?
    ensures Inv(s.(pipe := ShiftPipe(s.pipe))) && Inv(s.(pipe := ShiftPipe(s.pipe), isShifted := ShiftPipe(s.pipe)[0].None?))
    ensures ShiftPipe(s.pipe)[0].None? && !s.pendingFill && !s.isReplay && !s.rWaiting && !s.wWaiting
    ensures Shape(s.(pipe := ShiftPipe(s.pipe)))
    ensures var q := ShiftPipe(s.pipe); q[|q| - 1].Some? ==> q[|q| - 1].value.way.None? && |q| > 1
  {
    hide SetOf, TagOf, WellFormed, Find, InPipe;
    InPipeShift(s.pipe);
  }

  lemma AdvanceInv(s: State, now: nat)
    requires Inv(s) && Back(s).None?
    ensures Inv(Advance(s, now))
    ensures Advance(s, now).rWaiting == s.rWaiting && Advance(s, now).wWaiting == s.wWaiting
  {
    hide SetOf, TagOf, WellFormed, Find, VictimWay, HandleFlush, InPipe, Access;
    ShiftInv(s);
    if s.pendingFlush && Empty(s.pipe) {
      HandleFlushInv(s);
    } else {
      var s1 := s.(pipe := ShiftPipe(s.pipe));
      if Back(s1).Some? && !Probe(s1.cache, Back(s1).value.addr) {
        LookUpMissLog(s1, now);
        LookUpMissEntry(s1, now);
      }
    }
  }

  /** One update keeps the invariant, its assert holds, and requests to memory never overlap. */
  lemma UpdateInv(s: State, now: nat)
    requires Inv(s) && Awake(s)
    ensures UpdateOk(s) && Inv(Update(s, now).state)
    ensures Update(s, now).sent.Some? ==> !s.rWaiting && !s.wWaiting
    ensures var r := Update(s, now);
      && r.state.rWaiting == (r.sent.Some? && r.sent.value.isRead)
      && r.state.wWaiting == (s.wWaiting || (r.sent.Some? && !r.sent.value.isRead))
  {
    hide SetOf, TagOf, WellFormed, Find, VictimWay, InPipe, Advance, LookUp, HandleHit, MissStep;
    if Back(s).None? {
      AdvanceInv(s, now);
    } else {
      LookUpShape(s, now);
      var s1 := if Back(s).value.way.None? then LookUp(s, now) else s;
      if Back(s).value.way.None? { LookUpReady(s, now); } else { StableReady(s); }
      if LineOf(s1, Back(s1).value).valid {
        HandleHitShape(s1);
        HandleHitInv(s1);
        HandleHitFlags(s1);
        AdvanceInv(HandleHit(s1), now);
      } else {
        assert s1.(isReplay := false) == s1;
        MissStepInv(s1);
      }
    }
  }

  lemma HandleHitFlags(s: State)
    requires Shape(s) && Back(s).Some? && Back(s).value.way.Some?
    ensures HandleHit(s).rWaiting == s.rWaiting && HandleHit(s).wWaiting == s.wWaiting
  {
  }

  /** After the lookup of a fresh entry. */
  lemma LookUpReady(s: State, now: nat)
    requires Inv(s) && Back(s).Some? && Back(s).value.way.None?
    ensures var s1 := LookUp(s, now);
      && s1.rWaiting == s.rWaiting == false && s1.wWaiting == s.wWaiting == false && !s1.isReplay
      && Shape(s1) && Back(s1).Some? && Back(s1).value.way.Some?
      && if Missing(s1) then MissReady(s1) else HitReady(s1)
  {
    hide SetOf, TagOf, SetOk, Find, VictimWay, Access, InPipe;
    LookUpShape(s, now);
    if Probe(s.cache, Back(s).value.addr) {
      LookUpHit(s, now);
      SameUids(s, LookUp(s, now));
    } else {
      LookUpMissLog(s, now);
      LookUpMissEntry(s, now);
    }
  }

  lemma SameUids(s: State, s': State)
    requires s.pipe != [] && Back(s).Some? && |s'.pipe| == |s.pipe| && Back(s').Some?
    requires s'.pipe == s.pipe[|s.pipe| - 1 := Some(Back(s).value.(way := Back(s').value.way))]
    ensures InPipe(s'.pipe) == InPipe(s.pipe)
  {
    InPipeBack(s.pipe, Back(s'));
    InPipeBack(s.pipe, Back(s));
    assert s.pipe[|s.pipe| - 1 := Back(s)] == s.pipe;
  }

  /** An entry looked up earlier: a miss in progress, or the replay. */
  lemma StableReady(s: State)
    requires Inv(s) && Awake(s) && Back(s).Some? && Back(s).value.way.Some?
    ensures !s.rWaiting && (Missing(s) ==> !s.isReplay)
    ensures if Missing(s) then MissReady(s) else HitReady(s) && !s.wWaiting
  {
    hide SetOf, TagOf, WellFormed, Find, InPipe;
  }

  /** The refill lands on the way the miss emptied, so the replay finds the block. */
  lemma ReadRespInv(s: State, now: nat)
    requires Inv(s) && s.rWaiting
    ensures ReadRespOk(s) && Inv(ReadResp(s, now))
    ensures Probe(ReadResp(s, now).cache, Back(s).value.addr)
  {
    hide SetOf, TagOf, SetOk, Find, InPipe;
    var e := Back(s).value;
    FillOk(s.cache, e.addr, e.way.value, now);
    FillSets(s.cache, e.addr, e.way.value, now);
    FillFinds(s.cache, e.addr, e.way.value, now);
  }

  lemma FillFinds(c: Cache, addr: nat, w: nat, now: nat)
    requires WellFormed(c) && w < c.geo.assoc
    ensures Shaped(Fill(c, addr, w, now)) && Probe(Fill(c, addr, w, now), addr)
  {
    hide SetOf, TagOf, SetOk;
    FillSets(c, addr, w, now);
    var s := SetOf(c.geo, addr);
    assert Fill(c, addr, w, now).sets[s][w].valid && Fill(c, addr, w, now).sets[s][w].tag == TagOf(c.geo, addr);
  }

  lemma WriteRespInv(s: State)
    requires Inv(s) && s.wWaiting
    ensures Inv(WriteResp(s))
  {
    hide SetOf, TagOf, WellFormed, Find, InPipe;
  }

  lemma FlushAllInv(s: State)
    requires Inv(s)
    ensures Inv(s.(pendingFlush := true))
  {
    hide SetOf, TagOf, WellFormed, Find, InPipe;
  }
}

/** Where the addresses of a data cache come from: every block it holds, asks for or evicts is one the LSU asked for. */
module BlockOrigin {
  import opened Common
  import Isa
  import opened Routing
  import opened CacheBase
  import opened PipeCache
  import opened PipeCacheInv

  predicate Good(addr: nat) {
    addr < 0x1_0000_0000 && Isa.Cacheable(addr)
  }

  predicate LinesGood(sets: seq<seq<Line>>) {
    forall t, w :: 0 <= t < |sets| && 0 <= w < |sets[t]| && sets[t][w].valid ==> Good(sets[t][w].tag)
  }

  predicate PipeGood(p: seq<Option<Entry>>) {
    forall i :: 0 <= i < |p| && p[i].Some? ==> Good(p[i].value.addr)
  }

  /** Requests, valid lines and the saved victim of the cache are cacheable 32-bit addresses. */
  ghost predicate BlocksOk(s: State) {
    && GoodGeometry(s.cache.geo) && 0x1000_0000 % s.cache.geo.lineBytes == 0
    && LinesGood(s.cache.sets) && PipeGood(s.pipe)
    && (s.pendingEvict ==> Good(s.evictAddr))
  }

  lemma InitGood(g: Geometry, policy: Policy, depth: nat, writeBack: bool)
    requires GoodGeometry(g) && depth > 0 && 0x1000_0000 % g.lineBytes == 0
    ensures BlocksOk(PipeCache.Init(g, policy, depth, writeBack))
  {
  }

  lemma RequestGood(s: State, addr: nat, isWrite: bool, uid: nat)
    requires BlocksOk(s) && s.pipe != [] && Good(addr)
    ensures BlocksOk(Request(s, addr, isWrite, uid))
  {
    hide Good;
  }

  lemma AccessGood(c: Cache, addr: nat, now: nat)
    requires WellFormed(c) && LinesGood(c.sets)
    ensures LinesGood(Access(c, addr, now).0.sets) && Access(c, addr, now).0.geo == c.geo
  {
    hide SetOf, TagOf, SetOk, VictimWay, Good;
    AccessOk(c, addr, now);
    if Probe(c, addr) {
      var s := SetOf(c.geo, addr);
      TouchOk(Remember(c, s), s, Find(c.sets[s], TagOf(c.geo, addr)), now);
    }
  }

  /** The victim that is saved is a line of the cache. */
  lemma SaveEvictGood(s: State, addr: nat)
    requires BlocksOk(s) && Shape(s)
    ensures var s1 := SaveEvict(s, addr);
      s1 == s.(pendingEvict := s1.pendingEvict, evictAddr := s1.evictAddr) && (s1.pendingEvict ==> Good(s1.evictAddr))
  {
    hide SetOf, TagOf, Find, Good, VictimWay;
  }

  lemma LookUpGood(s: State, now: nat)
    requires BlocksOk(s) && WellFormed(s.cache) && Shape(s) && Back(s).Some?
    ensures BlocksOk(LookUp(s, now))
  {
    hide SetOf, TagOf, SetOk, Find, Good, Access, Probe, SaveEvict, VictimWay, LinesGood;
    AccessGood(s.cache, Back(s).value.addr, now);
    SaveEvictGood(s, Back(s).value.addr);
  }

  lemma HandleHitGood(s: State)
    requires BlocksOk(s) && Shape(s) && Back(s).Some? && Back(s).value.way.Some?
    ensures BlocksOk(HandleHit(s))
  {
    hide SetOf, TagOf, Good;
  }

  lemma HandleFlushGood(s: State)
    requires BlocksOk(s)
    ensures BlocksOk(HandleFlush(s))
  {
    hide Good;
  }

  lemma AdvanceGood(s: State, now: nat)
    requires BlocksOk(s) && WellFormed(s.cache) && Shape(s)
    ensures BlocksOk(Advance(s, now))
  {
    hide SetOf, TagOf, SetOk, Good, LookUp, LinesGood, HandleFlush, Probe;
    HandleFlushGood(s);
    var s1 := s.(pipe := ShiftPipe(s.pipe));
    assert Shape(s1) && BlocksOk(s1);
    if Back(s1).Some? { LookUpGood(s1, now); }
  }

  lemma MissStepGood(s: State)
    requires BlocksOk(s) && Shape(s) && Back(s).Some?
    ensures var r := MissStep(s);
      BlocksOk(r.state) && (r.sent.Some? ==> Good(r.sent.value.addr))
  {
    hide Good, LinesGood, Shaped;
  }

  /** An update keeps the addresses good, and so is the one it sends to memory. */
  lemma UpdateGood(s: State, now: nat)
    requires BlocksOk(s) && Inv(s) && Awake(s)
    ensures UpdateOk(s) && BlocksOk(Update(s, now).state)
    ensures Update(s, now).sent.Some? ==> Good(Update(s, now).sent.value.addr)
  {
    UpdateInv(s, now);
    hide BlocksOk, SetOf, TagOf, SetOk, Find, Good, Advance, LookUp, HandleHit, MissStep, FlagsOk, LogOk, CleanOk;
    if Back(s).None? {
      AdvanceGood(s, now);
    } else {
      LookUpShape(s, now);
      LookUpGood(s, now);
      var s1 := if Back(s).value.way.None? then LookUp(s, now) else s;
      if LineOf(s1, Back(s1).value).valid {
        HandleHitShape(s1);
        HandleHitGood(s1);
        if Back(s).value.way.None? { LookUpReady(s, now); } else { StableReady(s); }
        HandleHitInv(s1);
        AdvanceGood(HandleHit(s1), now);
      } else {
        NotReplay(s1);
        MissStepGood(s1.(isReplay := false));
      }
    }
  }

  lemma NotReplay(s: State)
    requires BlocksOk(s) && Shape(s)
    ensures BlocksOk(s.(isReplay := false)) && Shape(s.(isReplay := false))
  {
  }

  /** A refill installs the block of the request, which lies in the same region as its address. */
  lemma ReadRespGood(s: State, now: nat)
    requires BlocksOk(s) && ReadRespOk(s)
    ensures BlocksOk(ReadResp(s, now))
  {
    var e := Back(s).value;
    BlockSameSide(s.cache.geo, e.addr);
    assert Good(TagOf(s.cache.geo, e.addr));
    FillSets(s.cache, e.addr, e.way.value, now);
    hide SetOf, TagOf, Good;
  }

  lemma WriteRespGood(s: State)
    requires BlocksOk(s)
    ensures BlocksOk(WriteResp(s))
  {
  }
}

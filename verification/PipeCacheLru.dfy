/**
 LRU in the pipelined cache itself: the recency list of the requests that the cache has looked up, in every
 run whose ticks are in order. One update may look up a hit and, after the shift, the next request that
 misses; refills come whenever memory answers.
 */
module PipeCacheLru {
  import opened Common
  import opened CacheBase
  import opened LruStack
  import opened PipeCache
  import opened PipeCacheInv
  import R = PipeCacheRuns

  /**
   A cache with its history since the last flush: the addresses it was asked for, those it has looked up,
   the contents before the last lookup, and the first tick in which the next update or refill may come.
   */
  datatype Track = Track(s: State, asked: seq<nat>, looked: seq<nat>, before: Cache, next: nat)

  // ---------------------------------------------------------------- the run with its history

  /** save_evict_info and access, on record. */
  function Looked(t: Track, now: nat): Track
    requires Shape(t.s) && Back(t.s).Some?
  {
    t.(s := LookUp(t.s, now), looked := t.looked + [Back(t.s).value.addr], before := t.s.cache)
  }

  function Shifted(t: Track): Track
    requires t.s.pipe != []
  {
    t.(s := t.s.(pipe := ShiftPipe(t.s.pipe)))
  }

  /** A request at the end of the pipe that has not been looked up and is not there. */
  predicate NewMiss(s: State)
    requires Shape(s)
  {
    Back(s).Some? && Back(s).value.way.None? && !Probe(s.cache, Back(s).value.addr)
  }

  /** The second half of an update. A flush ends the history. */
  function Advanced(t: Track, now: nat): Track
    requires Shape(t.s)
  {
    if t.s.pendingFlush && Empty(t.s.pipe) then t.(s := HandleFlush(t.s), asked := [], looked := [])
    else
      var t1 := Shifted(t);
      if NewMiss(t1.s) then
        var t2 := Looked(t1, now);
        t2.(s := t2.s.(pendingFill := true))
      else t1.(s := t1.s.(isShifted := true))
  }

  /** The first half: the last entry has been looked up. */
  function FirstHalf(t: Track, now: nat): Track
    requires Shape(t.s) && Back(t.s).Some?
  {
    if Back(t.s).value.way.None? then Looked(t, now) else t
  }

  function Updated(t: Track, now: nat): Track
    requires UpdateOk(t.s)
  {
    if Back(t.s).None? then Advanced(t, now).(next := now)
    else
      LookUpShape(t.s, now);
      var t1 := FirstHalf(t, now);
      if LineOf(t1.s, Back(t1.s).value).valid then
        HandleHitShape(t1.s);
        Advanced(t1.(s := HandleHit(t1.s)), now).(next := now + 1)
      else t1.(s := MissStep(t1.s.(isReplay := false)).state, next := now)
  }

  /** The history follows the cache. */
  lemma UpdatedState(t: Track, now: nat)
    requires UpdateOk(t.s)
    ensures Updated(t, now).s == Update(t.s, now).state
  {
    hide LookUp, HandleHit, MissStep, HandleFlush, SetOf, TagOf;
    if Back(t.s).Some? { LookUpShape(t.s, now); }
  }

  /**
   Ticks are in order: no update or refill before the previous one, and after an answer or a refill the next
   is at least one tick later (`blocked_until_`).
   */
  predicate InTime(t: Track, e: R.Event) {
    match e
    case Tick(now) => t.next <= now
    case Refilled(at) => t.next <= at
    case _ => true
  }

  function Step(t: Track, e: R.Event): Track
    requires R.Possible(t.s, e) && R.AssertsHold(t.s, e)
  {
    match e
    case Cpu(addr, isWrite, uid) => t.(s := Request(t.s, addr, isWrite, uid), asked := t.asked + [addr])
    case Tick(now) => Updated(t, now)
    case Refilled(at) => t.(s := ReadResp(t.s, at), next := at + 1)
    case Written => t.(s := WriteResp(t.s))
    case FlushAll => t.(s := t.s.(pendingFlush := true))
  }

  function Start(g: Geometry, depth: nat, writeBack: bool): Track
    requires GoodGeometry(g) && depth > 0
  {
    Track(PipeCache.Init(g, Lru, depth, writeBack), [], [], CacheBase.Init(g, Lru, false), 0)
  }

  function Follow(t: Track, es: seq<R.Event>): Option<Track> {
    if es == [] then Some(t)
    else
      match Follow(t, es[..|es| - 1])
      case None => None
      case Some(u) =>
        var e := es[|es| - 1];
        if R.Possible(u.s, e) && R.AssertsHold(u.s, e) && InTime(u, e) then Some(Step(u, e)) else None
  }

  /** LRU without victim lag: an instruction cache, or a direct-mapped data cache. */
  ghost predicate Reachable(t: Track) {
    exists g, depth: nat, writeBack, es ::
      GoodGeometry(g) && depth > 0 && !(writeBack && g.assoc > 1) && Follow(Start(g, depth, writeBack), es) == Some(t)
  }

  /** A followed run is a run of the cache. */
  lemma {:induction false} FollowIsRun(t: Track, es: seq<R.Event>)
    requires Follow(t, es).Some?
    ensures R.Run(t.s, es) == Some(Follow(t, es).value.s)
  {
    hide R.Possible, R.AssertsHold, Updated, Update;
    if es != [] {
      FollowIsRun(t, es[..|es| - 1]);
      var u := Follow(t, es[..|es| - 1]).value;
      StepState(u, es[|es| - 1]);
    }
  }

  lemma StepState(t: Track, e: R.Event)
    requires R.Possible(t.s, e) && R.AssertsHold(t.s, e)
    ensures Step(t, e).s == R.Step(t.s, e)
  {
    hide Updated, Update, Request, ReadResp;
    if e.Tick? { UpdatedState(t, e.now); }
  }

  // ---------------------------------------------------------------- requests not yet looked up

  /** Addresses in the pipe that have not been looked up, oldest first. */
  function Unlooked(p: seq<Option<Entry>>): seq<nat> {
    if p == [] then []
    else
      var last := p[|p| - 1];
      (if last.Some? && last.value.way.None? then [last.value.addr] else []) + Unlooked(p[..|p| - 1])
  }

  lemma UnlookedFront(p: seq<Option<Entry>>, e: Entry)
    requires p != [] && p[0].None? && e.way.None?
    ensures Unlooked(p[0 := Some(e)]) == Unlooked(p) + [e.addr]
  {
    if |p| > 1 {
      var n := |p| - 1;
      assert p[0 := Some(e)][..n] == p[..n][0 := Some(e)];
      UnlookedFront(p[..n], e);
    } else {
      assert p[0 := Some(e)][..0] == [] && p[..0] == [];
    }
  }

  lemma UnlookedNone(p: seq<Option<Entry>>)
    ensures Unlooked([None] + p) == Unlooked(p)
  {
    if p != [] {
      assert ([None] + p)[..|p|] == [None] + p[..|p| - 1];
      UnlookedNone(p[..|p| - 1]);
    }
  }

  lemma UnlookedShift(p: seq<Option<Entry>>)
    requires p != [] && p[|p| - 1].None?
    ensures Unlooked(ShiftPipe(p)) == Unlooked(p)
  {
    if |p| > 1 { UnlookedNone(p[..|p| - 1]); }
  }

  /** The last entry, unless it has been looked up, comes before the others. */
  lemma UnlookedBack(p: seq<Option<Entry>>, e: Option<Entry>)
    requires p != [] && (e.Some? ==> e.value.way.Some?)
    ensures Unlooked(p) == (if p[|p| - 1].Some? && p[|p| - 1].value.way.None? then [p[|p| - 1].value.addr] else [])
                           + Unlooked(p[|p| - 1 := e])
  {
    assert p[|p| - 1 := e][..|p| - 1] == p[..|p| - 1];
  }

  lemma UnlookedEmpty(p: seq<Option<Entry>>)
    requires Empty(p)
    ensures Unlooked(p) == []
  {
  }

  // ---------------------------------------------------------------- the invariant

  /** Every set holds what fits of its recency list. */
  ghost predicate AllTrack(c: Cache, addrs: seq<nat>, now: nat)
    requires GoodGeometry(c.geo)
  {
    forall si :: 0 <= si < c.geo.sets ==> SetTracks(c, Recency(c.geo, addrs, si), si, now)
  }

  /** During a miss: the contents before the lookup track the list without the missing address, whose way is empty. */
  ghost predicate MissTracks(t: Track) {
    && Missing(t.s) && LruCache(t.before) && t.before.geo == t.s.cache.geo
    && t.looked != [] && Back(t.s).value.addr == t.looked[|t.looked| - 1]
    && !Probe(t.before, Back(t.s).value.addr)
    && (t.s.cache, Back(t.s).value.way.value) == Access(t.before, Back(t.s).value.addr, 0)
    && AllTrack(t.before, t.looked[..|t.looked| - 1], t.next)
  }

  ghost predicate TrackInv(t: Track) {
    && Inv(t.s) && LruCache(t.s.cache)
    && t.asked == t.looked + Unlooked(t.s.pipe)
    && if Missing(t.s) then MissTracks(t) else AllTrack(t.s.cache, t.looked, t.next)
  }

  // ---------------------------------------------------------------- what one touch does to the lists

  lemma AllLater(c: Cache, addrs: seq<nat>, now: nat, later: nat)
    requires GoodGeometry(c.geo) && AllTrack(c, addrs, now) && now <= later
    ensures AllTrack(c, addrs, later)
  {
    hide Recency, Kept, Tracks;
    forall si | 0 <= si < c.geo.sets ensures SetTracks(c, Recency(c.geo, addrs, si), si, later) {
      var l := Recency(c.geo, addrs, si);
      assert SetTracks(c, l, si, now);
      var order :| Tracks(c.sets[si], Kept(l, c.geo.assoc), order, now);
      Later(c.sets[si], Kept(l, c.geo.assoc), order, now, later);
    }
  }

  /** A served access moves its block to the front of its list. */
  lemma AllServed(c: Cache, addrs: seq<nat>, r: Ref, now: nat)
    requires LruCache(c) && AllTrack(c, addrs, now) && now <= Touched(c, r)
    ensures LruCache(Serve(c, r)) && Serve(c, r).geo == c.geo
    ensures AllTrack(Serve(c, r), addrs + [r.addr], Touched(c, r) + 1)
  {
    hide Serve, Touched, SetTracks, MoveToFront, SetOf, TagOf, SetOk;
    ServeOk(c, r);
    assert (addrs + [r.addr])[..|addrs + [r.addr]| - 1] == addrs;
    forall si | 0 <= si < c.geo.sets
      ensures SetTracks(Serve(c, r), Recency(c.geo, addrs + [r.addr], si), si, Touched(c, r) + 1)
    {
      ServeTracks(c, Recency(c.geo, addrs, si), r, si, now);
    }
  }

  /** Lines that differ in their dirty flag alone. */
  predicate AlikeLines(a: seq<Line>, b: seq<Line>) {
    |a| == |b| && forall w :: 0 <= w < |a| ==> b[w] == a[w].(dirty := b[w].dirty)
  }

  lemma {:induction false} CountAlike(a: seq<Line>, b: seq<Line>)
    requires AlikeLines(a, b)
    ensures CountValid(a) == CountValid(b)
  {
    if a != [] { CountAlike(a[1..], b[1..]); }
  }

  lemma TracksAlike(a: seq<Line>, b: seq<Line>, kept: seq<nat>, order: seq<nat>, now: nat)
    requires AlikeLines(a, b) && Tracks(a, kept, order, now)
    ensures Tracks(b, kept, order, now)
  {
    hide CountValid;
    CountAlike(a, b);
  }

  lemma AllDirty(c: Cache, addrs: seq<nat>, t: nat, w: nat, now: nat)
    requires LruCache(c) && AllTrack(c, addrs, now) && t < c.geo.sets && w < c.geo.assoc
    ensures LruCache(SetDirty(c, t, w)) && AllTrack(SetDirty(c, t, w), addrs, now)
  {
    hide Recency, Kept, Tracks, SetOf, TagOf, SetOk;
    DirtyOk(c, t, w);
    var d := SetDirty(c, t, w);
    forall si | 0 <= si < c.geo.sets ensures SetTracks(d, Recency(c.geo, addrs, si), si, now) {
      var l := Recency(c.geo, addrs, si);
      assert SetTracks(c, l, si, now);
      var order :| Tracks(c.sets[si], Kept(l, c.geo.assoc), order, now);
      TracksAlike(c.sets[si], d.sets[si], Kept(l, c.geo.assoc), order, now);
    }
  }

  /** After a flush nothing is kept of nothing. */
  lemma AllFlushed(c: Cache, now: nat)
    requires LruCache(c)
    ensures LruCache(InvalidateAll(c)) && AllTrack(InvalidateAll(c), [], now)
  {
    hide Tracks, SetOf, TagOf, SetOk, CountValid;
    FlushOk(c);
    var d := InvalidateAll(c);
    assert LruCache(d) && AllInvalid(d);
    forall si | 0 <= si < d.geo.sets ensures SetTracks(d, Recency(d.geo, [], si), si, 0) {
      NothingKept(d, si);
    }
    AllLater(d, [], 0, now);
  }

  // ---------------------------------------------------------------- operations of the cache

  /** A lookup that hits is a served access. */
  lemma LookHit(t: Track, now: nat)
    requires Shape(t.s) && Back(t.s).Some? && LruCache(t.s.cache) && Probe(t.s.cache, Back(t.s).value.addr)
    requires AllTrack(t.s.cache, t.looked, t.next) && t.next <= now
    ensures LruCache(Looked(t, now).s.cache) && AllTrack(Looked(t, now).s.cache, Looked(t, now).looked, now + 1)
  {
    var r := Ref(Back(t.s).value.addr, now, now);
    AllServed(t.s.cache, t.looked, r, t.next);
    hide AllTrack, SetOf, TagOf;
  }

  /** A lookup that misses empties a way and keeps the old contents on record. */
  lemma LookMiss(t: Track, now: nat)
    requires Inv(t.s) && NewMiss(t.s) && LruCache(t.s.cache) && AllTrack(t.s.cache, t.looked, t.next)
    ensures MissTracks(Looked(t, now)) && LruCache(Looked(t, now).s.cache)
  {
    hide AllTrack, SetOf, TagOf, SetOk, VictimWay, Find, LogOk, CleanOk, FlagsOk;
    LookUpMissEntry(t.s, now);
    AccessOk(t.s.cache, Back(t.s).value.addr, now);
    var t' := Looked(t, now);
    assert t'.looked[..|t'.looked| - 1] == t.looked;
    assert Access(t.s.cache, Back(t.s).value.addr, now) == Access(t.s.cache, Back(t.s).value.addr, 0);
  }

  /** The refill completes the access that the lookup began. */
  lemma RefillServes(t: Track, at: nat)
    requires MissTracks(t) && t.next <= at && ReadRespOk(t.s)
    ensures LruCache(ReadResp(t.s, at).cache) && AllTrack(ReadResp(t.s, at).cache, t.looked, at + 1)
  {
    var n := |t.looked| - 1;
    var r := Ref(Back(t.s).value.addr, 0, at);
    AllServed(t.before, t.looked[..n], r, t.next);
    assert t.looked[..n] + [r.addr] == t.looked;
    assert ReadResp(t.s, at).cache == Serve(t.before, r);
    hide AllTrack, SetOf, TagOf;
  }

  // ---------------------------------------------------------------- updates

  /** No miss in progress: the history is the contents. */
  ghost predicate Settled(t: Track) {
    && Inv(t.s) && LruCache(t.s.cache)
    && t.asked == t.looked + Unlooked(t.s.pipe)
    && AllTrack(t.s.cache, t.looked, t.next)
  }

  /** A miss in progress. */
  ghost predicate Pending(t: Track) {
    && Inv(t.s) && LruCache(t.s.cache)
    && t.asked == t.looked + Unlooked(t.s.pipe)
    && MissTracks(t)
  }

  lemma TrackLater(t: Track, later: nat)
    requires TrackInv(t) && t.next <= later
    ensures TrackInv(t.(next := later))
  {
    hide Inv, AllTrack, Unlooked, Access, Probe;
    if Missing(t.s) {
      AllLater(t.before, t.looked[..|t.looked| - 1], t.next, later);
    } else {
      AllLater(t.s.cache, t.looked, t.next, later);
    }
  }

  lemma AdvancedState(t: Track, now: nat)
    requires Shape(t.s)
    ensures Advanced(t, now).s == Advance(t.s, now) && Advanced(t, now).next == t.next
  {
    hide LookUp, HandleFlush, Probe, ShiftPipe, Empty;
  }

  lemma AdvancedNext(t: Track, now: nat, next: nat)
    requires Shape(t.s)
    ensures Advanced(t.(next := next), now) == Advanced(t, now).(next := next)
  {
    hide LookUp, HandleFlush, Probe, ShiftPipe, Empty;
  }

  lemma AdvancedInv(t: Track, now: nat)
    requires Settled(t) && Back(t.s).None?
    ensures TrackInv(Advanced(t, now))
  {
    hide Inv, AllTrack, Unlooked, Access, Probe, LookUp, Empty, InvalidateAll, LruCache;
    ShapeOf(t.s);
    AdvanceInv(t.s, now);
    AdvancedState(t, now);
    ShiftInv(t.s);
    UnlookedShift(t.s.pipe);
    if t.s.pendingFlush && Empty(t.s.pipe) {
      FlushedInv(t, now);
    } else {
      var t1 := Shifted(t);
      if NewMiss(t1.s) {
        LookMiss(t1, now);
        UnlookedBack(t1.s.pipe, Back(LookUp(t1.s, now)));
        LookedPipe(t1.s, now);
      } else {
        NotMissing(t1.s);
      }
    }
  }

  lemma ShapeOf(s: State)
    requires Inv(s)
    ensures Shape(s)
  {
  }

  lemma NotMissing(s: State)
    requires Shape(s) && (Back(s).Some? ==> Back(s).value.way.None?)
    ensures !Missing(s) && !Missing(s.(isShifted := true))
  {
  }

  lemma LookedPipe(s: State, now: nat)
    requires Shape(s) && Back(s).Some?
    ensures var s' := LookUp(s, now);
      && s'.pipe == s.pipe[|s.pipe| - 1 := Back(s')] && Back(s').Some? && Back(s').value.way.Some?
      && Back(s').value.addr == Back(s).value.addr
  {
    hide SetOf, TagOf, Access, Probe, VictimWay;
  }

  lemma FlushedInv(t: Track, now: nat)
    requires Settled(t) && Empty(t.s.pipe) && t.s.pendingFlush && Shape(t.s)
    ensures TrackInv(Advanced(t, now))
  {
    hide Inv, AllTrack, InvalidateAll, LruCache, Unlooked;
    HandleFlushInv(t.s);
    AllFlushed(t.s.cache, t.next);
    UnlookedEmpty(HandleFlush(t.s).pipe);
    ShapeOf(HandleFlush(t.s));
    NotMissing(HandleFlush(t.s));
  }

  /** The answer of a hit or of a replay, and the shift after it. */
  lemma AnswerInv(t: Track, now: nat)
    requires HitReady(t.s) && LruCache(t.s.cache) && AllTrack(t.s.cache, t.looked, t.next) && t.asked == t.looked + Unlooked(t.s.pipe)
    ensures Shape(HandleHit(t.s)) && TrackInv(Advanced(t.(s := HandleHit(t.s)), now))
  {
    hide Inv, AllTrack, Unlooked, Access, Probe, LruCache, SetDirty, SetOf, TagOf, WellFormed;
    HandleHitShape(t.s);
    HandleHitInv(t.s);
    var e := Back(t.s).value;
    AllDirty(t.s.cache, t.looked, SetOf(t.s.cache.geo, e.addr), e.way.value, t.next);
    UnlookedBack(t.s.pipe, None);
    AdvancedInv(t.(s := HandleHit(t.s)), now);
  }

  /** A step of the miss path leaves contents and pipe alone. */
  lemma WaitInv(t: Track)
    requires MissReady(t.s) && LruCache(t.s.cache) && MissTracks(t) && t.asked == t.looked + Unlooked(t.s.pipe)
    ensures TrackInv(t.(s := MissStep(t.s.(isReplay := false)).state))
  {
    hide Inv, AllTrack, Unlooked, Access, Probe, LruCache, MissReady;
    NotReplay(t.s);
    MissStepInv(t.s);
    MissStepPipe(t.s);
  }

  lemma NotReplay(s: State)
    requires MissReady(s)
    ensures s.(isReplay := false) == s
  {
  }

  lemma MissStepPipe(s: State)
    requires Shape(s) && Back(s).Some?
    ensures MissStep(s).state.pipe == s.pipe && MissStep(s).state.cache == s.cache
  {
  }

  /** The first half for an entry that is looked up now. */
  lemma FreshInv(t: Track, now: nat)
    requires Settled(t) && Back(t.s).Some? && Back(t.s).value.way.None? && t.next <= now
    ensures var t1 := Looked(t, now);
      && t1.asked == t1.looked + Unlooked(t1.s.pipe) && LruCache(t1.s.cache)
      && (if Missing(t1.s) then MissReady(t1.s) && MissTracks(t1) else HitReady(t1.s) && AllTrack(t1.s.cache, t1.looked, now + 1))
  {
    hide Inv, AllTrack, Unlooked, Access, LruCache, LookUp, HitReady, MissReady;
    ShapeOf(t.s);
    LookUpReady(t.s, now);
    LookedPipe(t.s, now);
    UnlookedBack(t.s.pipe, Back(LookUp(t.s, now)));
    LookedHits(t.s, now);
    if Probe(t.s.cache, Back(t.s).value.addr) { LookHit(t, now); } else { LookMiss(t, now); }
  }

  lemma LookedHits(s: State, now: nat)
    requires Inv(s) && Back(s).Some? && Back(s).value.way.None?
    ensures Missing(LookUp(s, now)) <==> !Probe(s.cache, Back(s).value.addr)
  {
    hide SetOf, TagOf, SetOk, VictimWay, Find, LogOk, CleanOk, FlagsOk;
    AccessOk(s.cache, Back(s).value.addr, now);
  }

  lemma UpdatedInv(t: Track, now: nat)
    requires TrackInv(t) && Awake(t.s) && t.next <= now
    ensures UpdateOk(t.s) && TrackInv(Updated(t, now))
  {
    hide Inv, AllTrack, Unlooked, Access, LruCache, LookUp, HitReady, MissReady, MissTracks, HandleHit, MissStep, Advanced, UpdateOk;
    ShapeOf(t.s);
    UpdateInv(t.s, now);
    if Back(t.s).None? {
      AdvancedInv(t, now);
      AdvancedState(t, now);
      TrackLater(Advanced(t, now), now);
    } else {
      LookUpShape(t.s, now);
      var t1 := FirstHalf(t, now);
      if Back(t.s).value.way.None? {
        FreshInv(t, now);
        if Missing(t1.s) {
          WaitInv(t1);
          TrackLater(t1.(s := MissStep(t1.s.(isReplay := false)).state), now);
        } else {
          AnswerInv(t1.(next := now + 1), now);
          AdvancedNext(t1.(s := HandleHit(t1.s)), now, now + 1);
        }
      } else {
        StableReady(t.s);
        if Missing(t.s) {
          WaitInv(t);
          TrackLater(t.(s := MissStep(t.s.(isReplay := false)).state), now);
        } else {
          AnswerInv(t, now);
          AdvancedState(t.(s := HandleHit(t.s)), now);
          TrackLater(Advanced(t.(s := HandleHit(t.s)), now), now + 1);
        }
      }
    }
  }

  // ---------------------------------------------------------------- the other events

  lemma CpuInv(t: Track, addr: nat, isWrite: bool, uid: nat)
    requires TrackInv(t) && Ready(t.s) && (isWrite ==> t.s.writeBack)
    ensures RequestOk(t.s) && TrackInv(t.(s := Request(t.s, addr, isWrite, uid), asked := t.asked + [addr]))
  {
    hide Inv, AllTrack, Unlooked, Access, LruCache, Probe;
    RequestInv(t.s, addr, isWrite, uid);
    UnlookedFront(t.s.pipe, Entry(addr, isWrite, uid, None));
    ShapeOf(t.s);
    ShapeOf(Request(t.s, addr, isWrite, uid));
    ReadyFront(t.s);
  }

  /** A request enters in front of an entry that waits for its block. */
  lemma ReadyFront(s: State)
    requires Inv(s) && Ready(s)
    ensures Missing(s) ==> |s.pipe| > 1
    ensures |s.pipe| == 1 ==> Back(s).None?
  {
    hide WellFormed, LogOk, CleanOk;
  }

  lemma RefilledInv(t: Track, at: nat)
    requires TrackInv(t) && t.s.rWaiting && t.next <= at
    ensures ReadRespOk(t.s) && TrackInv(t.(s := ReadResp(t.s, at), next := at + 1))
  {
    hide Inv, AllTrack, Unlooked, Access, LruCache, Probe, Fill;
    ReadRespInv(t.s, at);
    WaitingMisses(t.s);
    RefillServes(t, at);
    ShapeOf(ReadResp(t.s, at));
    FilledNotMissing(t.s, at);
  }

  lemma WaitingMisses(s: State)
    requires Inv(s) && s.rWaiting
    ensures Missing(s)
  {
    hide WellFormed, LogOk, CleanOk, Find, SetOf, TagOf;
  }

  lemma FilledNotMissing(s: State, at: nat)
    requires ReadRespOk(s)
    ensures !Missing(ReadResp(s, at)) && ReadResp(s, at).pipe == s.pipe
  {
    hide SetOf, TagOf;
    FillSets(s.cache, Back(s).value.addr, Back(s).value.way.value, at);
  }

  lemma FlagInv(t: Track, s': State)
    requires TrackInv(t) && Inv(s') && s'.cache == t.s.cache && s'.pipe == t.s.pipe
    ensures TrackInv(t.(s := s'))
  {
    hide Inv, AllTrack, Unlooked, Access, LruCache, Probe;
    ShapeOf(s');
    ShapeOf(t.s);
  }

  lemma StepInv(t: Track, e: R.Event)
    requires TrackInv(t) && R.Possible(t.s, e) && InTime(t, e)
    ensures R.AssertsHold(t.s, e) && TrackInv(Step(t, e))
  {
    hide TrackInv, Updated, Request, ReadResp, Inv;
    InvOf(t);
    R.StepInv(t.s, e);
    match e {
      case Cpu(addr, isWrite, uid) => CpuInv(t, addr, isWrite, uid);
      case Tick(now) => UpdatedInv(t, now);
      case Refilled(at) => RefilledInv(t, at);
      case Written => FlagInv(t, WriteResp(t.s));
      case FlushAll => FlagInv(t, t.s.(pendingFlush := true));
    }
  }

  lemma InvOf(t: Track)
    requires TrackInv(t)
    ensures Inv(t.s)
  {
  }

  lemma StartInv(g: Geometry, depth: nat, writeBack: bool)
    requires GoodGeometry(g) && depth > 0 && !(writeBack && g.assoc > 1)
    ensures TrackInv(Start(g, depth, writeBack))
  {
    hide Inv, Unlooked, SetOf, TagOf, Tracks;
    var t := Start(g, depth, writeBack);
    InitInv(g, Lru, depth, writeBack);
    UnlookedEmpty(t.s.pipe);
    ShapeOf(t.s);
    assert Back(t.s).None?;
    forall si | 0 <= si < g.sets ensures SetTracks(t.s.cache, Recency(g, [], si), si, 0) {
      NothingKept(t.s.cache, si);
    }
  }

  lemma {:induction false} FollowInv(g: Geometry, depth: nat, writeBack: bool, es: seq<R.Event>)
    requires GoodGeometry(g) && depth > 0 && !(writeBack && g.assoc > 1)
    ensures var r := Follow(Start(g, depth, writeBack), es); r.Some? ==> TrackInv(r.value)
  {
    hide TrackInv, Step, R.Possible, R.AssertsHold, InTime;
    if es == [] {
      StartInv(g, depth, writeBack);
    } else {
      var n := |es| - 1;
      FollowInv(g, depth, writeBack, es[..n]);
      var t := Follow(Start(g, depth, writeBack), es[..n]);
      if t.Some? && R.Possible(t.value.s, es[n]) && InTime(t.value, es[n]) { StepInv(t.value, es[n]); }
    }
  }

  lemma ReachableInv(t: Track)
    requires Reachable(t)
    ensures TrackInv(t) && R.Reachable(t.s)
  {
    hide TrackInv, Follow, R.Run;
    var g, depth: nat, writeBack, es :|
      GoodGeometry(g) && depth > 0 && !(writeBack && g.assoc > 1) && Follow(Start(g, depth, writeBack), es) == Some(t);
    FollowInv(g, depth, writeBack, es);
    FollowIsRun(Start(g, depth, writeBack), es);
  }

  // ---------------------------------------------------------------- main results

  /** Requests are looked up once each, in the order in which the cache was asked; the rest is still in the pipe. */
  lemma LookedInOrder(t: Track)
    requires Reachable(t)
    ensures t.asked == t.looked + Unlooked(t.s.pipe)
  {
    hide Inv, AllTrack, Unlooked, MissTracks, LruCache;
    ReachableInv(t);
  }

  /**
   With LRU and no victim lag, each set holds the most recently used blocks of the requests looked up since
   the last flush, as many as it has ways, whenever no miss is in progress.
   */
  lemma ContentsAreRecent(t: Track, si: nat)
    requires Reachable(t) && !Missing(t.s) && si < t.s.cache.geo.sets
    ensures GoodGeometry(t.s.cache.geo) && SetTracks(t.s.cache, Recency(t.s.cache.geo, t.looked, si), si, t.next)
  {
    hide Inv, Unlooked, MissTracks, SetTracks, Recency;
    ReachableInv(t);
  }

  /** So the next lookup hits exactly if its block is among the `assoc` most recent of its set. */
  lemma NextHitIff(t: Track, addr: nat)
    requires Reachable(t) && !Missing(t.s)
    ensures Shaped(t.s.cache)
    ensures Probe(t.s.cache, addr)
       <==> TagOf(t.s.cache.geo, addr) in Kept(Recency(t.s.cache.geo, t.looked, SetOf(t.s.cache.geo, addr)), t.s.cache.geo.assoc)
  {
    hide Inv, Unlooked, MissTracks, SetTracks, Recency, Kept, Probe, TagOf, SetOf;
    ReachableInv(t);
    ContentsAreRecent(t, SetOf(t.s.cache.geo, addr));
    TrackedHits(t.s.cache, Recency(t.s.cache.geo, t.looked, SetOf(t.s.cache.geo, addr)), addr, t.next);
  }

  /**
   Stack property of the pipelined cache: two caches with the same sets and lines that have looked up the same
   requests, each in its own time and with its own pipe depth: what the one with fewer ways holds, the other holds.
   */
  lemma MoreWaysHoldMore(t: Track, u: Track, addr: nat)
    requires Reachable(t) && Reachable(u) && !Missing(t.s) && !Missing(u.s) && t.looked == u.looked
    requires var g, h := t.s.cache.geo, u.s.cache.geo; g.lineBytes == h.lineBytes && g.sets == h.sets && g.assoc <= h.assoc
    ensures Shaped(t.s.cache) && Shaped(u.s.cache)
    ensures Probe(t.s.cache, addr) ==> Probe(u.s.cache, addr)
  {
    hide Inv, Recency, Kept, Probe, TagOf, SetOf, Reachable, Missing;
    NextHitIff(t, addr);
    NextHitIff(u, addr);
    var g, h := t.s.cache.geo, u.s.cache.geo;
    SameMapping(g, h, addr);
    SameRecency(g, h, t.looked, SetOf(g, addr));
    KeptMore(Recency(g, t.looked, SetOf(g, addr)), g.assoc, h.assoc);
  }

  lemma KeptMore(l: seq<nat>, m: nat, n: nat)
    requires m <= n
    ensures Kept(l, m) <= Kept(l, n)
  {
  }
}

/** What holds in every reachable state of the cache. */
module PipeCacheRuns {
  import opened Common
  import opened CacheBase
  import opened PipeCache
  import opened PipeCacheInv

  datatype Event = Cpu(addr: nat, isWrite: bool, uid: nat) | Tick(now: nat) | Refilled(at: nat) | Written | FlushAll

  /** The CPU asks a ready cache; memory answers what was asked; an update runs when one is scheduled. */
  predicate Possible(s: State, e: Event) {
    match e
    case Cpu(_, isWrite, _) => Ready(s) && (isWrite ==> s.writeBack)
    case Tick(_) => Awake(s)
    case Refilled(_) => s.rWaiting
    case Written => s.wWaiting
    case FlushAll => true
  }

  predicate AssertsHold(s: State, e: Event) {
    match e
    case Cpu(_, _, _) => RequestOk(s)
    case Tick(_) => UpdateOk(s)
    case Refilled(_) => ReadRespOk(s)
    case Written => true
    case FlushAll => true
  }

  function Step(s: State, e: Event): State
    requires Possible(s, e) && AssertsHold(s, e)
  {
    match e
    case Cpu(addr, isWrite, uid) => Request(s, addr, isWrite, uid)
    case Tick(now) => Update(s, now).state
    case Refilled(now) => ReadResp(s, now)
    case Written => WriteResp(s)
    case FlushAll => s.(pendingFlush := true)
  }

  lemma StepInv(s: State, e: Event)
    requires Inv(s) && Possible(s, e)
    ensures AssertsHold(s, e) && Inv(Step(s, e))
  {
    hide Inv, Request, Update, ReadResp, WriteResp;
    match e {
      case Cpu(addr, isWrite, uid) => RequestInv(s, addr, isWrite, uid);
      case Tick(now) => UpdateInv(s, now);
      case Refilled(now) => ReadRespInv(s, now);
      case Written => WriteRespInv(s);
      case FlushAll => FlushAllInv(s);
    }
  }

  function Run(s: State, es: seq<Event>): Option<State> {
    if es == [] then Some(s)
    else
      match Run(s, es[..|es| - 1])
      case None => None
      case Some(t) =>
        var e := es[|es| - 1];
        if Possible(t, e) && AssertsHold(t, e) then Some(Step(t, e)) else None
  }

  ghost predicate Reachable(s: State) {
    exists g, policy, depth: nat, writeBack, es ::
      GoodGeometry(g) && depth > 0 && Run(PipeCache.Init(g, policy, depth, writeBack), es) == Some(s)
  }

  lemma RunInv(g: Geometry, policy: Policy, depth: nat, writeBack: bool, es: seq<Event>)
    requires GoodGeometry(g) && depth > 0
    ensures var r := Run(PipeCache.Init(g, policy, depth, writeBack), es); r.Some? ==> Inv(r.value)
  {
    hide Inv, Step, Possible;
    if es == [] {
      InitInv(g, policy, depth, writeBack);
    } else {
      RunInv(g, policy, depth, writeBack, es[..|es| - 1]);
      var t := Run(PipeCache.Init(g, policy, depth, writeBack), es[..|es| - 1]);
      if t.Some? && Possible(t.value, es[|es| - 1]) { StepInv(t.value, es[|es| - 1]); }
    }
  }

  lemma ReachableInv(s: State)
    requires Reachable(s)
    ensures Inv(s)
  {
    hide Inv, Run;
    var g, policy, depth: nat, writeBack, es :|
      GoodGeometry(g) && depth > 0 && Run(PipeCache.Init(g, policy, depth, writeBack), es) == Some(s);
    RunInv(g, policy, depth, writeBack, es);
  }

  lemma InitReachable(g: Geometry, policy: Policy, depth: nat, writeBack: bool)
    requires GoodGeometry(g) && depth > 0
    ensures Reachable(PipeCache.Init(g, policy, depth, writeBack))
  {
    assert Run(PipeCache.Init(g, policy, depth, writeBack), []) == Some(PipeCache.Init(g, policy, depth, writeBack));
  }

  /** One more possible event is one more reachable state. */
  lemma StepReachable(s: State, e: Event)
    requires Reachable(s) && Possible(s, e)
    ensures AssertsHold(s, e) && Reachable(Step(s, e))
  {
    hide Inv, Step, Possible, AssertsHold;
    ReachableInv(s);
    StepInv(s, e);
    var g, policy, depth: nat, writeBack, es :|
      GoodGeometry(g) && depth > 0 && Run(PipeCache.Init(g, policy, depth, writeBack), es) == Some(s);
    assert (es + [e])[..|es|] == es;
    assert Run(PipeCache.Init(g, policy, depth, writeBack), es + [e]) == Some(Step(s, e));
  }

  // ---------------------------------------------------------------- main results

  /** No assert of the cache fails. */
  lemma NoAssertFails(s: State, e: Event)
    requires Reachable(s) && Possible(s, e)
    ensures AssertsHold(s, e)
  {
    ReachableInv(s);
    StepInv(s, e);
  }

  /** Every accepted request is answered once, in order: what is not answered yet is in the pipe. */
  lemma AnsweredInOrder(s: State)
    requires Reachable(s)
    ensures s.log.accepted == s.log.answered + InPipe(s.pipe)
  {
    hide EntryOk, CleanOk, InPipe;
    ReachableInv(s);
  }

  /** Every dirty block that replacement took out has been written back once, in order; at most one is still to go. */
  lemma DroppedIsWritten(s: State)
    requires Reachable(s)
    ensures s.log.dropped == s.log.written + (if s.pendingFill && s.pendingEvict then [s.evictAddr] else [])
  {
    hide EntryOk, CleanOk, InPipe;
    ReachableInv(s);
  }

  /** Each miss sends at most one write and then exactly one read, and each read is followed by one replay that hits. */
  lemma MissAccounting(s: State)
    requires Reachable(s)
    ensures s.log.misses == s.log.refills + (if s.pendingFill then 1 else 0)
    ensures s.log.refills == s.log.replays + (if s.isReplay then 1 else 0)
    ensures s.log.evictsNow <= 1
    ensures !(s.rWaiting && s.wWaiting)
  {
    hide EntryOk, CleanOk, InPipe;
    ReachableInv(s);
  }

  /** Valid lines of a set hold different blocks that map to it. */
  lemma TagsDistinct(s: State, t: nat, v: nat, w: nat)
    requires Reachable(s) && t < |s.cache.sets| && v < w < |s.cache.sets[t]|
    requires s.cache.sets[t][v].valid && s.cache.sets[t][w].valid
    ensures s.cache.sets[t][v].tag != s.cache.sets[t][w].tag
    ensures GoodGeometry(s.cache.geo) && SetOf(s.cache.geo, s.cache.sets[t][v].tag) == t
  {
    hide SetOf, TagOf, LogOk, CleanOk;
    ReachableInv(s);
    assert SetOk(s.cache.geo, t, s.cache.sets[t]);
  }

  /** The line that save_evict_info looks at is the one that access empties, also when the way comes from another set. */
  lemma SavedIsEmptied(s: State, addr: nat, now: nat)
    requires Reachable(s) && Shape(s) && s.writeBack && !Probe(s.cache, addr)
    ensures var w := Access(s.cache, addr, now).1;
      var victim := s.cache.sets[SetOf(s.cache.geo, addr)][w];
      var s1 := SaveEvict(s, addr);
      && w < s.cache.geo.assoc
      && !Access(s.cache, addr, now).0.sets[SetOf(s.cache.geo, addr)][w].valid
      && (s1.pendingEvict <==> victim.valid && victim.dirty)
      && (s1.pendingEvict ==> s1.evictAddr == victim.tag)
  {
    hide SetOf, TagOf, LogOk, CleanOk, VictimWay, Find;
    ReachableInv(s);
    AccessOk(s.cache, addr, now);
  }

  // ---------------------------------------------------------------- dirty blocks

  predicate DirtyBlock(c: Cache, b: nat) {
    exists t, w :: 0 <= t < |c.sets| && 0 <= w < |c.sets[t]| && DirtyAt(c.sets[t][w], b)
  }

  predicate DirtyAt(l: Line, b: nat) {
    l.valid && l.dirty && l.tag == b
  }

  /** A line of another cache state with the same block, still dirty. */
  lemma StaysDirty(c: Cache, c': Cache, t: nat, w: nat, b: nat)
    requires t < |c.sets| && w < |c.sets[t]| && DirtyAt(c.sets[t][w], b)
    requires t < |c'.sets| && w < |c'.sets[t]| && DirtyAt(c'.sets[t][w], b)
    ensures DirtyBlock(c', b)
  {
  }

  /** A lookup keeps a dirty block, or takes it out and records it. */
  lemma LookUpDirty(s: State, now: nat, b: nat)
    requires Inv(s) && Back(s).Some? && Back(s).value.way.None? && DirtyBlock(s.cache, b)
    ensures var s' := LookUp(s, now);
      DirtyBlock(s'.cache, b) || s'.log.dropped == s.log.dropped + [b]
  {
    hide SetOf, TagOf, SetOk, Find, VictimWay, LogOk, CleanOk;
    var t, w :| 0 <= t < |s.cache.sets| && 0 <= w < |s.cache.sets[t]| && DirtyAt(s.cache.sets[t][w], b);
    var s' := LookUp(s, now);
    AccessOk(s.cache, Back(s).value.addr, now);
    AccessKeepsOthers(s.cache, Back(s).value.addr, now, t, w);
    if DirtyAt(s'.cache.sets[t][w], b) { StaysDirty(s.cache, s'.cache, t, w, b); }
  }

  /** A lookup changes stamps, except for the one line it empties on a miss. */
  lemma AccessKeepsOthers(c: Cache, addr: nat, now: nat, t: nat, w: nat)
    requires WellFormed(c) && t < |c.sets| && w < |c.sets[t]|
    ensures var c' := Access(c, addr, now).0;
      && t < |c'.sets| && w < |c'.sets[t]|
      && (c'.sets[t][w] == c.sets[t][w].(stamp := c'.sets[t][w].stamp)
          || (!Probe(c, addr) && t == SetOf(c.geo, addr) && w == VictimWay(c, t)))
  {
    hide SetOf, TagOf, SetOk, VictimWay, Find;
    AccessOk(c, addr, now);
    if Probe(c, addr) {
      var s := SetOf(c.geo, addr);
      TouchOk(Remember(c, s), s, Find(c.sets[s], TagOf(c.geo, addr)), now);
    }
  }

  lemma HitDirty(s: State, b: nat)
    requires Shape(s) && Back(s).Some? && Back(s).value.way.Some? && DirtyBlock(s.cache, b)
    ensures DirtyBlock(HandleHit(s).cache, b) && HandleHit(s).log.dropped == s.log.dropped
  {
    hide SetOf, TagOf;
    var t, w :| 0 <= t < |s.cache.sets| && 0 <= w < |s.cache.sets[t]| && DirtyAt(s.cache.sets[t][w], b);
    StaysDirty(s.cache, HandleHit(s).cache, t, w, b);
  }

  lemma AdvanceDirty(s: State, now: nat, b: nat)
    requires Inv(s) && Back(s).None? && DirtyBlock(s.cache, b) && !(s.pendingFlush && Empty(s.pipe))
    ensures var s' := Advance(s, now);
      DirtyBlock(s'.cache, b) || s'.log.dropped == s.log.dropped + [b]
  {
    hide Inv, LookUp, DirtyBlock, Probe;
    ShiftInv(s);
    var s1 := s.(pipe := ShiftPipe(s.pipe));
    if Back(s1).Some? && !Probe(s1.cache, Back(s1).value.addr) { LookUpDirty(s1, now, b); }
  }

  /** The last entry is answered by the next update. */
  predicate LastHits(s: State)
    requires Shape(s)
  {
    Back(s).Some? && (if Back(s).value.way.None? then Probe(s.cache, Back(s).value.addr) else LineOf(s, Back(s).value).valid)
  }

  predicate OnlyLast(p: seq<Option<Entry>>) {
    forall i :: 0 <= i < |p| - 1 ==> p[i].None?
  }

  /** The next update flushes: the pipe is empty, or becomes so by answering its only entry. */
  predicate FlushFires(s: State)
    requires Shape(s)
  {
    s.pendingFlush && (Empty(s.pipe) || (OnlyLast(s.pipe) && LastHits(s)))
  }

  /** A block is kept dirty, or taken out and recorded for its write-back. */
  predicate KeptOrDropped(s: State, s': State, b: nat) {
    DirtyBlock(s'.cache, b) || s'.log.dropped == s.log.dropped + [b]
  }

  /** The second half of an update loses dirty blocks exactly if it flushes. */
  lemma AdvanceLoses(s: State, now: nat, b: nat)
    requires Inv(s) && Back(s).None? && DirtyBlock(s.cache, b)
    ensures KeptOrDropped(s, Advance(s, now), b) <==> !(s.pendingFlush && Empty(s.pipe))
  {
    hide Inv, LookUp, DirtyBlock, Probe, InvalidateAll;
    if s.pendingFlush && Empty(s.pipe) {
      NothingDirty(s.cache, b);
    } else {
      AdvanceDirty(s, now, b);
    }
  }

  lemma NothingDirty(c: Cache, b: nat)
    ensures !DirtyBlock(InvalidateAll(c), b)
  {
    forall t, w | 0 <= t < |InvalidateAll(c).sets| && 0 <= w < |InvalidateAll(c).sets[t]|
      ensures !DirtyAt(InvalidateAll(c).sets[t][w], b)
    {
    }
  }

  /** An update keeps or records every dirty block, except when it flushes: then it loses every one of them unrecorded. */
  lemma DirtyLostIffFlush(s: State, now: nat, b: nat)
    requires Reachable(s) && Awake(s) && DirtyBlock(s.cache, b)
    ensures UpdateOk(s)
    ensures KeptOrDropped(s, Update(s, now).state, b) <==> !FlushFires(s)
  {
    hide Inv, Reachable, SetOf, TagOf, DirtyBlock, Advance, HandleHit, LookUp, Probe, Empty, Awake;
    ReachableInv(s);
    UpdateInv(s, now);
    if Back(s).None? {
      AdvanceLoses(s, now, b);
    } else {
      EmptyHasNoLast(s.pipe);
      LookUpShape(s, now);
      if Back(s).value.way.None? { LookUpReady(s, now); LookUpDirty(s, now, b); LookUpKeeps(s, now); } else { StableReady(s); }
      var s1 := if Back(s).value.way.None? then LookUp(s, now) else s;
      LooksAlike(s, now);
      if LineOf(s1, Back(s1).value).valid {
        HandleHitShape(s1);
        HandleHitInv(s1);
        HitDirty(s1, b);
        HitKeeps(s1);
        AdvanceLoses(HandleHit(s1), now, b);
      }
    }
  }

  lemma EmptyHasNoLast(p: seq<Option<Entry>>)
    requires p != [] && p[|p| - 1].Some?
    ensures !Empty(p)
  {
  }

  /** A lookup leaves the line of the last entry valid exactly if the block is there, and the entries before it alone. */
  lemma LooksAlike(s: State, now: nat)
    requires Inv(s) && Back(s).Some?
    ensures Shape(LookUp(s, now)) && Back(LookUp(s, now)).Some? && Back(LookUp(s, now)).value.way.Some?
    ensures var s1 := if Back(s).value.way.None? then LookUp(s, now) else s;
      && (LineOf(s1, Back(s1).value).valid <==> LastHits(s))
      && (Empty(HandleHit(s1).pipe) <==> OnlyLast(s.pipe))
  {
    hide SetOf, TagOf, SetOk, Find, VictimWay, LogOk, CleanOk, FlagsOk;
    LookUpShape(s, now);
    AccessOk(s.cache, Back(s).value.addr, now);
    var s1 := if Back(s).value.way.None? then LookUp(s, now) else s;
    assert HandleHit(s1).pipe == s.pipe[|s.pipe| - 1 := None];
    LastGone(s.pipe);
  }

  lemma LastGone(p: seq<Option<Entry>>)
    requires p != []
    ensures Empty(p[|p| - 1 := None]) <==> OnlyLast(p)
  {
    var q := p[|p| - 1 := None];
    if Empty(q) { assert forall i :: 0 <= i < |p| - 1 ==> q[i] == p[i]; }
  }

  lemma LookUpKeeps(s: State, now: nat)
    requires Inv(s) && Back(s).Some? && Back(s).value.way.None?
    ensures var s' := LookUp(s, now);
      s'.pendingFlush == s.pendingFlush && (Shape(s') && Back(s').Some? && Back(s').value.way.Some? && !Missing(s') ==> s'.log == s.log)
  {
    hide SetOf, TagOf, SetOk, Find, VictimWay, LogOk, CleanOk;
    AccessOk(s.cache, Back(s).value.addr, now);
  }

  lemma HitKeeps(s: State)
    requires Shape(s) && Back(s).Some? && Back(s).value.way.Some?
    ensures HandleHit(s).pendingFlush == s.pendingFlush && HandleHit(s).log.dropped == s.log.dropped
  {
  }

  /** A refill keeps every dirty block. */
  lemma RefillKeepsDirty(s: State, now: nat, b: nat)
    requires Reachable(s) && s.rWaiting && DirtyBlock(s.cache, b)
    ensures ReadRespOk(s) && DirtyBlock(ReadResp(s, now).cache, b)
  {
    ReachableInv(s);
    ReadRespInv(s, now);
    hide SetOf, TagOf, SetOk, Find, LogOk, CleanOk;
    var e := Back(s).value;
    var t, w :| 0 <= t < |s.cache.sets| && 0 <= w < |s.cache.sets[t]| && DirtyAt(s.cache.sets[t][w], b);
    FillSets(s.cache, e.addr, e.way.value, now);
    StaysDirty(s.cache, ReadResp(s, now).cache, t, w, b);
  }

  // ---------------------------------------------------------------- the loss, in a run

  /** One line of one word. */
  const TINY := Geometry(4, 1, 1)

  /** A write misses, is refilled and replayed; then FENCE.I asks for a flush. */
  const WRITE_THEN_FLUSH: seq<Event> := [Cpu(0, true, 7), Tick(1), Tick(2), Refilled(3), Tick(4), FlushAll]

  /** The state of the one-line cache: the line, the pipe of one place, and the flags that the run moves. */
  function Tiny(l: Line, e: Option<Entry>, fill: bool, waits: bool, replay: bool, shifted: bool, flush: bool, log: Log): State {
    State(Cache(TINY, Lru, false, [[l]], [Bits(false, false, false)], None), true, [e],
          waits, false, shifted, replay, flush, fill, false, 0, log)
  }

  lemma {:induction false} RunSteps(s: State, es: seq<Event>, n: nat, t: State)
    requires n < |es| && Run(s, es[..n]) == Some(t) && Possible(t, es[n]) && AssertsHold(t, es[n])
    ensures Run(s, es[..n + 1]) == Some(Step(t, es[n]))
  {
    assert es[..n + 1][..n] == es[..n];
  }

  const WRITE := Entry(0, true, 7, None)
  const WRITE_LOOKED := Entry(0, true, 7, Some(0))

  lemma InitTiny()
    ensures PipeCache.Init(TINY, Lru, 1, true) == Tiny(EMPTY, None, false, false, false, true, false, Log([], [], 0, 0, 0, 0, [], []))
  {
    var s := PipeCache.Init(TINY, Lru, 1, true);
    assert s.cache.sets[0] == [EMPTY];
    assert s.cache.sets == [[EMPTY]];
    assert s.cache.bits == [Bits(false, false, false)];
    assert s.pipe == [None];
  }

  const ASKED := Tiny(EMPTY, Some(WRITE), false, false, false, false, false, Log([7], [], 0, 0, 0, 0, [], []))
  const MISSED := Tiny(EMPTY, Some(WRITE_LOOKED), true, false, false, false, false, Log([7], [], 1, 0, 0, 0, [], []))
  const WAITS := Tiny(EMPTY, Some(WRITE_LOOKED), false, true, true, false, false, Log([7], [], 1, 1, 0, 0, [], []))
  const FILLED := Tiny(Line(true, false, 0, 3), Some(WRITE_LOOKED), false, false, true, false, false, Log([7], [], 1, 1, 0, 0, [], []))
  const WRITTEN := Tiny(Line(true, true, 0, 3), None, false, false, false, true, false, Log([7], [7], 1, 1, 1, 0, [], []))

  lemma TinyMap()
    ensures SetOf(TINY, 0) == 0 && TagOf(TINY, 0) == 0
  {
  }

  lemma Single<T>(x: T, y: T)
    ensures [x][0 := y] == [y]
  {
  }

  lemma AskTiny(s: State)
    requires s == Tiny(EMPTY, None, false, false, false, true, false, Log([], [], 0, 0, 0, 0, [], []))
    ensures Possible(s, Cpu(0, true, 7)) && AssertsHold(s, Cpu(0, true, 7)) && Step(s, Cpu(0, true, 7)) == ASKED
  {
  }

  lemma LookTiny()
    ensures Shape(ASKED) && LookUp(ASKED, 1) == MISSED.(pendingFill := false)
  {
    TinyMap();
    hide SetOf, TagOf;
    assert VictimWay(ASKED.cache, 0) == 0;
    assert !Probe(ASKED.cache, 0);
    Single(EMPTY, EMPTY);
    Single([EMPTY], [EMPTY]);
    Single(Some(WRITE), Some(WRITE_LOOKED));
  }

  lemma MissTiny()
    ensures Possible(ASKED, Tick(1)) && AssertsHold(ASKED, Tick(1)) && Step(ASKED, Tick(1)) == MISSED
  {
    LookTiny();
    TinyMap();
    hide SetOf, TagOf, LookUp, VictimWay;
  }

  lemma ReadTiny()
    ensures Possible(MISSED, Tick(2)) && AssertsHold(MISSED, Tick(2)) && Step(MISSED, Tick(2)) == WAITS
  {
    TinyMap();
    hide SetOf, TagOf, LookUp, VictimWay;
  }

  lemma FillTiny()
    ensures Possible(WAITS, Refilled(3)) && AssertsHold(WAITS, Refilled(3)) && Step(WAITS, Refilled(3)) == FILLED
  {
    TinyMap();
    hide SetOf, TagOf, LookUp, VictimWay;
    FillSets(WAITS.cache, 0, 0, 3);
    Single(EMPTY, Line(true, false, 0, 3));
    Single([EMPTY], [Line(true, false, 0, 3)]);
  }

  lemma ReplayTiny()
    ensures Possible(FILLED, Tick(4)) && AssertsHold(FILLED, Tick(4)) && Step(FILLED, Tick(4)) == WRITTEN
  {
    TinyMap();
    hide SetOf, TagOf, LookUp, VictimWay;
    Single(Line(true, false, 0, 3), Line(true, true, 0, 3));
    Single([Line(true, false, 0, 3)], [Line(true, true, 0, 3)]);
    Single(Some(WRITE_LOOKED), None);
    assert HandleHit(FILLED) == WRITTEN.(isShifted := false);
  }

  /** After the write and its replay the line is dirty, the write is answered, nothing is out, and the flush is pending. */
  lemma AfterWrite()
    ensures Run(PipeCache.Init(TINY, Lru, 1, true), WRITE_THEN_FLUSH) == Some(WRITTEN.(pendingFlush := true))
  {
    hide Run, PipeCache.Init, Possible, AssertsHold, Step;
    var es := WRITE_THEN_FLUSH;
    var s0 := PipeCache.Init(TINY, Lru, 1, true);
    InitTiny();
    RunNothing(s0, es);
    AskTiny(s0);
    RunSteps(s0, es, 0, s0);
    MissTiny();
    RunSteps(s0, es, 1, ASKED);
    ReadTiny();
    RunSteps(s0, es, 2, MISSED);
    FillTiny();
    RunSteps(s0, es, 3, WAITS);
    ReplayTiny();
    RunSteps(s0, es, 4, FILLED);
    FlushTiny();
    RunSteps(s0, es, 5, WRITTEN);
    assert es[..6] == es;
  }

  lemma FlushTiny()
    ensures Possible(WRITTEN, FlushAll) && AssertsHold(WRITTEN, FlushAll)
    ensures Step(WRITTEN, FlushAll) == WRITTEN.(pendingFlush := true)
  {
  }

  lemma RunNothing(s: State, es: seq<Event>)
    ensures Run(s, es[..0]) == Some(s)
  {
  }

  /** A run that loses a write: block 0 is dirty, the next update flushes, and no write-back was or is recorded. */
  lemma FlushForgetsDirty(now: nat)
    ensures var r := Run(PipeCache.Init(TINY, Lru, 1, true), WRITE_THEN_FLUSH);
      && r.Some? && Reachable(r.value) && Awake(r.value) && DirtyBlock(r.value.cache, 0) && UpdateOk(r.value)
      && var s' := Update(r.value, now).state;
         !DirtyBlock(s'.cache, 0) && s'.log.dropped == s'.log.written == [] && !s'.pendingEvict
  {
    AfterWrite();
    var s := Run(PipeCache.Init(TINY, Lru, 1, true), WRITE_THEN_FLUSH).value;
    hide Run;
    assert Reachable(s);
    assert DirtyAt(s.cache.sets[0][0], 0);
    NothingDirty(s.cache, 0);
  }

  /** The update after a refill answers the request that missed. */
  lemma ReplayAnswers(s: State, now: nat)
    requires Reachable(s) && s.isReplay && !s.rWaiting
    ensures UpdateOk(s) && Back(s).Some?
    ensures s.log.answered + [Back(s).value.uid] <= Update(s, now).state.log.answered
  {
    ReachableInv(s);
    UpdateInv(s, now);
    hide SetOf, TagOf, WellFormed, Find, LogOk, CleanOk, Advance;
    HandleHitShape(s);
    AdvanceAnswers(HandleHit(s), now);
  }

  lemma AdvanceAnswers(s: State, now: nat)
    requires Shape(s)
    ensures Advance(s, now).log.answered == s.log.answered
  {
    hide SetOf, TagOf, Find, VictimWay, Access;
  }
}

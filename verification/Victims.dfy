/** Which way a miss empties, told by what the cache was asked before: with and without the lag, under LRU and PLRU. */
module Victims {
  import opened Common
  import opened CacheBase
  import P = Plru

  /** The set of an address. */
  function Index(g: Geometry, addr: nat): (i: nat)
    requires GoodGeometry(g)
    ensures i < g.sets
  {
    addr / g.lineBytes % g.sets
  }

  /** PLRU keeps its bits for one, two or four ways only. */
  predicate PolicyFits(policy: Policy, assoc: nat) {
    policy.Plru? ==> P.Supported(assoc)
  }

  predicate FirstHole(lines: seq<Line>, w: nat) {
    w < |lines| && !lines[w].valid && forall v :: 0 <= v < w ==> lines[v].valid
  }

  predicate Full(lines: seq<Line>) {
    forall v :: 0 <= v < |lines| ==> lines[v].valid
  }

  /** The first of the lines that were touched longest ago. */
  predicate Oldest(lines: seq<Line>, w: nat) {
    && w < |lines|
    && (forall v :: 0 <= v < |lines| ==> lines[w].stamp <= lines[v].stamp)
    && (forall v :: 0 <= v < w ==> lines[w].stamp < lines[v].stamp)
  }

  /** The way that two or four ways' tree bits point at: away from the half touched last, then from the way touched last in the other half. */
  predicate Points(assoc: nat, b: Bits, w: nat) {
    match assoc
    case 1 => w == 0
    case 2 => w < 2 && (w == 0 <==> b.b0)
    case 4 => w < 4 && (w < 2 <==> b.b0) && (w % 2 == 0 <==> if b.b0 then b.b1 else b.b2)
    case _ => true
  }

  /** A way of the set that replacement looks at: the lowest empty one; if there is none, the policy's choice. */
  predicate Chosen(c: Cache, s: nat, w: nat)
    requires s < |c.sets| && s < |c.bits|
  {
    && (FirstHole(c.sets[s], w) || Full(c.sets[s]))
    && (Full(c.sets[s]) && c.policy.Lru? ==> Oldest(c.sets[s], w))
    && (Full(c.sets[s]) && c.policy.Plru? ==> Points(c.geo.assoc, c.bits[s], w))
  }

  lemma MissWay(c: Cache, b: nat, now: nat)
    requires Shaped(c) && !Probe(c, b) && PolicyFits(c.policy, c.geo.assoc)
    ensures var w := Access(c, b, now).1;
      && w < c.geo.assoc
      && Chosen(c, if c.lag && c.lagSet.Some? then c.lagSet.value else Index(c.geo, b), w)
  {
    hide TagOf;
    var from := if c.lag && c.lagSet.Some? then c.lagSet.value else Index(c.geo, b);
    var k := FirstInvalid(c.sets[from]);
    assert |c.sets[from]| == c.geo.assoc;
    SmallRemainder(if k < c.geo.assoc then k else PolicyVictim(c, from), c.geo.assoc);
    assert Access(c, b, now).1 == VictimWay(c, Index(c.geo, b));
  }

  lemma SmallRemainder(k: nat, n: nat)
    requires k < n
    ensures k % n == k
  {
  }

  /** With the lag, the way of a miss is chosen in the set of the lookup before it, hit or miss, as that lookup left it. */
  lemma LaggedVictim(c: Cache, a: nat, before: nat, b: nat, now: nat)
    requires Shaped(c) && c.lag && PolicyFits(c.policy, c.geo.assoc)
    ensures var c1 := Access(c, a, before).0;
      && Shaped(c1) && c1.geo == c.geo
      && (!Probe(c1, b) ==> Access(c1, b, now).1 < c.geo.assoc && Chosen(c1, Index(c.geo, a), Access(c1, b, now).1))
  {
    AccessShape(c, a, before);
    var c1 := Access(c, a, before).0;
    if !Probe(c1, b) { MissWay(c1, b, now); }
  }

  /** Without the lag, or before the first lookup, it is chosen in the set of the miss. */
  lemma OwnVictim(c: Cache, b: nat, now: nat)
    requires Shaped(c) && (!c.lag || c.lagSet.None?) && !Probe(c, b) && PolicyFits(c.policy, c.geo.assoc)
    ensures Access(c, b, now).1 < c.geo.assoc && Chosen(c, Index(c.geo, b), Access(c, b, now).1)
  {
    MissWay(c, b, now);
  }

  lemma AccessShape(c: Cache, a: nat, now: nat)
    requires Shaped(c)
    ensures var c1 := Access(c, a, now).0;
      && Shaped(c1) && c1.geo == c.geo && c1.policy == c.policy && c1.lag == c.lag
      && c1.lagSet == (if c.lag then Some(Index(c.geo, a)) else c.lagSet)
  {
    hide VictimWay, TagOf;
  }

  // ---------------------------------------------------------------- histories

  /** What happens to a cache. A write marks a line; a flush invalidates all. */
  datatype Op = Look(addr: nat, at: nat) | Refill(addr: nat, way: nat, at: nat) | Mark(row: nat, way: nat) | Flush

  predicate Fits(g: Geometry, o: Op) {
    && (o.Refill? ==> o.way < g.assoc)
    && (o.Mark? ==> o.row < g.sets && o.way < g.assoc)
  }

  function Apply(c: Cache, o: Op): Cache
    requires Shaped(c) && Fits(c.geo, o)
  {
    match o
    case Look(addr, at) => Access(c, addr, at).0
    case Refill(addr, way, at) => Fill(c, addr, way, at)
    case Mark(row, way) => SetDirty(c, row, way)
    case Flush => InvalidateAll(c)
  }

  lemma ApplyShape(c: Cache, o: Op)
    requires Shaped(c) && Fits(c.geo, o)
    ensures var c' := Apply(c, o); Shaped(c') && c'.geo == c.geo && c'.policy == c.policy && c'.lag == c.lag
  {
    hide SetOf, TagOf, Access;
    if o.Look? { AccessShape(c, o.addr, o.at); }
  }

  predicate AllFit(g: Geometry, os: seq<Op>) {
    forall i :: 0 <= i < |os| ==> Fits(g, os[i])
  }

  function After(c: Cache, os: seq<Op>): (r: Cache)
    requires Shaped(c) && AllFit(c.geo, os)
    ensures Shaped(r) && r.geo == c.geo && r.policy == c.policy && r.lag == c.lag
  {
    if os == [] then c
    else
      var r := After(c, os[..|os| - 1]);
      ApplyShape(r, os[|os| - 1]);
      Apply(r, os[|os| - 1])
  }

  /** The address of the last lookup. */
  function LastLook(os: seq<Op>): Option<nat> {
    if os == [] then None
    else if os[|os| - 1].Look? then Some(os[|os| - 1].addr)
    else LastLook(os[..|os| - 1])
  }

  datatype Use = Use(way: nat, at: nat)

  function WaysOf(us: seq<Use>): (ts: seq<nat>)
    ensures |ts| == |us| && forall i :: 0 <= i < |ts| ==> ts[i] == us[i].way
  {
    seq(|us|, i requires 0 <= i < |us| => us[i].way)
  }

  /** The tick in which a way was last hit or filled. */
  function LastUse(us: seq<Use>, w: nat): Option<nat> {
    if us == [] then None
    else if us[|us| - 1].way == w then Some(us[|us| - 1].at)
    else LastUse(us[..|us| - 1], w)
  }

  /** The hits and fills of one set, in order. */
  function Touches(c: Cache, os: seq<Op>, row: nat): seq<Use>
    requires Shaped(c) && AllFit(c.geo, os)
  {
    if os == [] then []
    else
      var before := os[..|os| - 1];
      var r := After(c, before);
      Touches(c, before, row) +
      match os[|os| - 1]
      case Look(addr, at) => if Index(c.geo, addr) == row && Probe(r, addr) then [Use(Access(r, addr, at).1, at)] else []
      case Refill(addr, way, at) => if Index(c.geo, addr) == row then [Use(way, at)] else []
      case _ => []
  }

  /** The way whose last use is longest ago; the lowest of several from one tick. */
  predicate UsedFirst(us: seq<Use>, assoc: nat, w: nat) {
    && (forall v :: 0 <= v < assoc ==> LastUse(us, v).Some?)
    && w < assoc
    && (forall v :: 0 <= v < assoc ==> LastUse(us, w).value <= LastUse(us, v).value)
    && (forall v :: 0 <= v < w ==> LastUse(us, w).value < LastUse(us, v).value)
  }

  /** The way that PLRU gives up, by the touches of a set all of whose ways have been touched. */
  predicate OutOfTouch(assoc: nat, ts: seq<nat>, w: nat) {
    ts != [] && var last := ts[|ts| - 1];
    match assoc
    case 1 => w == 0
    case 2 => w + last == 1
    case 4 => var other := P.LastIn(ts, last < 2); other.Some? && w == P.Sibling(other.value)
    case _ => true
  }

  // ---------------------------------------------------------------- what the history says about the state

  /** A line has been used, and under LRU its stamp is the tick of its last use. */
  predicate LineUsed(c: Cache, row: nat, w: nat, us: seq<Use>)
    requires row < |c.sets| && w < |c.sets[row]|
  {
    LastUse(us, w).Some? && (c.policy.Lru? ==> LastUse(us, w).value == c.sets[row][w].stamp)
  }

  /** The bits of a set hold its touches, a valid line has been touched, and the lag is the last lookup. */
  ghost predicate Recorded(c: Cache, lagged: Option<nat>, row: nat, us: seq<Use>)
    requires Shaped(c) && row < c.geo.sets
  {
    && P.Ways(c.geo.assoc, WaysOf(us))
    && (c.policy.Plru? ==> c.bits[row] == P.After(c.geo.assoc, Bits(false, false, false), WaysOf(us)))
    && (forall w :: 0 <= w < c.geo.assoc && c.sets[row][w].valid ==> LineUsed(c, row, w, us))
    && c.lagSet == (if c.lag && lagged.Some? then Some(Index(c.geo, lagged.value)) else None)
  }

  lemma Grows(assoc: nat, b: Bits, us: seq<Use>, u: Use)
    ensures P.After(assoc, b, WaysOf(us + [u])) == PlruTouch(assoc, P.After(assoc, b, WaysOf(us)), u.way)
    ensures forall w :: LastUse(us + [u], w) == if w == u.way then Some(u.at) else LastUse(us, w)
  {
    assert (us + [u])[..|us|] == us;
    assert WaysOf(us + [u])[..|us|] == WaysOf(us);
  }

  lemma LookRecorded(c: Cache, addr: nat, now: nat, lagged: Option<nat>, row: nat, us: seq<Use>)
    requires Shaped(c) && row < c.geo.sets && Recorded(c, lagged, row, us)
    ensures var (c', w) := Access(c, addr, now);
      && Shaped(c') && c'.geo == c.geo
      && Recorded(c', Some(addr), row, us + if Index(c.geo, addr) == row && Probe(c, addr) then [Use(w, now)] else [])
  {
    hide TagOf, VictimWay, PlruTouch, P.After;
    AccessShape(c, addr, now);
    Grows(c.geo.assoc, Bits(false, false, false), us, Use(Access(c, addr, now).1, now));
    assert us + [] == us;
  }

  lemma RefillRecorded(c: Cache, addr: nat, way: nat, now: nat, lagged: Option<nat>, row: nat, us: seq<Use>)
    requires Shaped(c) && row < c.geo.sets && way < c.geo.assoc && Recorded(c, lagged, row, us)
    ensures var c' := Fill(c, addr, way, now);
      && Shaped(c') && c'.geo == c.geo
      && Recorded(c', lagged, row, us + if Index(c.geo, addr) == row then [Use(way, now)] else [])
  {
    hide TagOf, PlruTouch, P.After;
    Grows(c.geo.assoc, Bits(false, false, false), us, Use(way, now));
    assert us + [] == us;
  }

  lemma OpRecorded(c: Cache, o: Op, lagged: Option<nat>, row: nat, us: seq<Use>)
    requires Shaped(c) && row < c.geo.sets && Recorded(c, lagged, row, us) && (o.Mark? || o.Flush?) && Fits(c.geo, o)
    ensures Shaped(Apply(c, o)) && Apply(c, o).geo == c.geo && Recorded(Apply(c, o), lagged, row, us)
  {
    hide P.After;
  }

  lemma {:induction false} HistoryRecorded(g: Geometry, policy: Policy, lag: bool, os: seq<Op>, row: nat)
    requires GoodGeometry(g) && AllFit(g, os) && row < g.sets
    ensures var c0 := CacheBase.Init(g, policy, lag);
      Recorded(After(c0, os), LastLook(os), row, Touches(c0, os, row))
  {
    hide Access, Fill, SetDirty, InvalidateAll, Recorded, Probe;
    var c0 := CacheBase.Init(g, policy, lag);
    if os == [] {
      StartRecorded(g, policy, lag, row);
    } else {
      var before, o := os[..|os| - 1], os[|os| - 1];
      HistoryRecorded(g, policy, lag, before, row);
      var c, us := After(c0, before), Touches(c0, before, row);
      assert us + [] == us;
      match o {
        case Look(addr, at) => LookRecorded(c, addr, at, LastLook(before), row, us);
        case Refill(addr, way, at) => RefillRecorded(c, addr, way, at, LastLook(before), row, us);
        case _ => OpRecorded(c, o, LastLook(before), row, us);
      }
    }
  }

  lemma StartRecorded(g: Geometry, policy: Policy, lag: bool, row: nat)
    requires GoodGeometry(g) && row < g.sets
    ensures Recorded(CacheBase.Init(g, policy, lag), None, row, [])
  {
  }

  // ---------------------------------------------------------------- main results

  lemma {:induction false} TouchedHalf(ts: seq<nat>, w: nat)
    requires w in ts
    ensures ts != [] && P.LastIn(ts, P.UpperHalf(w)).Some?
  {
    var n := |ts| - 1;
    assert ts == ts[..n] + [ts[n]];
    if ts[n] != w { TouchedHalf(ts[..n], w); }
  }

  lemma UsedWay(us: seq<Use>, w: nat)
    requires LastUse(us, w).Some?
    ensures w in WaysOf(us)
  {
    var n := |us| - 1;
    if us[n].way == w { assert WaysOf(us)[n] == w; } else { UsedWay(us[..n], w); assert WaysOf(us)[..n] == WaysOf(us[..n]); }
  }

  /** The way that the tree bits point at, read back as touches. */
  lemma PointsAway(assoc: nat, ts: seq<nat>, w: nat)
    requires P.Supported(assoc) && P.Ways(assoc, ts) && forall v :: 0 <= v < assoc ==> v in ts
    requires Points(assoc, P.After(assoc, Bits(false, false, false), ts), w)
    ensures OutOfTouch(assoc, ts, w)
  {
    hide P.After;
    var b := Bits(false, false, false);
    TouchedHalf(ts, 0);
    assert ts[|ts| - 1] < assoc;
    if assoc == 2 {
      LastOfTwo(b, ts);
    } else if assoc == 4 {
      TouchedHalf(ts, 3);
      P.BitsAreHistory(b, ts);
      P.LastInHalf(ts, true);
      P.LastInHalf(ts, false);
    }
  }

  lemma LastOfTwo(b: Bits, ts: seq<nat>)
    requires P.Ways(2, ts) && ts != []
    ensures P.After(2, b, ts).b0 <==> ts[|ts| - 1] == 1
  {
    assert ts[|ts| - 1] < 2;
  }

  /**
   The way that a miss empties, after any history: in the set of the last lookup if the lag is on and there was
   one, else in the set of the miss, the lowest empty way; if there is none, the line touched longest ago under
   LRU, and under PLRU the way told by the touches of that set.
   */
  lemma VictimByHistory(g: Geometry, policy: Policy, lag: bool, os: seq<Op>, b: nat, now: nat)
    requires GoodGeometry(g) && PolicyFits(policy, g.assoc) && AllFit(g, os)
    requires !Probe(After(CacheBase.Init(g, policy, lag), os), b)
    ensures var c0 := CacheBase.Init(g, policy, lag);
      var c := After(c0, os);
      var w := Access(c, b, now).1;
      var from := Index(g, if lag && LastLook(os).Some? then LastLook(os).value else b);
      && w < g.assoc
      && (FirstHole(c.sets[from], w) || Full(c.sets[from]))
      && (Full(c.sets[from]) ==>
            var us := Touches(c0, os, from);
            if policy.Lru? then UsedFirst(us, g.assoc, w) else OutOfTouch(g.assoc, WaysOf(us), w))
  {
    hide Access, Probe, Index, OutOfTouch, P.After;
    var c0 := CacheBase.Init(g, policy, lag);
    var c := After(c0, os);
    var w := Access(c, b, now).1;
    HistoryRecorded(g, policy, lag, os, Index(g, b));
    var from := Index(g, if lag && LastLook(os).Some? then LastLook(os).value else b);
    HistoryRecorded(g, policy, lag, os, from);
    MissWay(c, b, now);
    var us := Touches(c0, os, from);
    if Full(c.sets[from]) {
      forall v | 0 <= v < g.assoc ensures LastUse(us, v).Some? && (policy.Lru? ==> LastUse(us, v).value == c.sets[from][v].stamp) {
        assert c.sets[from][v].valid && LineUsed(c, from, v, us);
      }
      if policy.Plru? {
        forall v | 0 <= v < g.assoc ensures v in WaysOf(us) { UsedWay(us, v); }
        PointsAway(g.assoc, WaysOf(us), w);
      }
    }
  }
}

/** The same for the pipelined cache: each of its runs is such a history, and a data cache of several ways has the lag. */
module PipeCacheVictims {
  import opened Common
  import opened CacheBase
  import opened PipeCache
  import opened PipeCacheInv
  import opened PipeCacheRuns
  import V = Victims

  /** The cache operations of the second half of an update. */
  function AdvanceOps(s: State, now: nat): seq<V.Op>
    requires Shape(s)
  {
    if s.pendingFlush && Empty(s.pipe) then [V.Flush]
    else
      var last := ShiftPipe(s.pipe)[|s.pipe| - 1];
      if last.Some? && last.value.way.None? && !Probe(s.cache, last.value.addr) then [V.Look(last.value.addr, now)] else []
  }

  /** An answered write marks its line, then the pipe moves. */
  function HitOps(s: State, now: nat): seq<V.Op>
    requires Shape(s) && Back(s).Some? && Back(s).value.way.Some?
  {
    HandleHitShape(s);
    var e := Back(s).value;
    (if e.isWrite then [V.Mark(V.Index(s.cache.geo, e.addr), e.way.value)] else []) + AdvanceOps(HandleHit(s), now)
  }

  /** The cache operations of one event: lookups, refills, marks of writes, flushes. */
  function OpsOf(s: State, e: Event): seq<V.Op>
    requires Possible(s, e) && AssertsHold(s, e)
  {
    match e
    case Tick(now) =>
      if Back(s).None? then AdvanceOps(s, now)
      else
        LookUpShape(s, now);
        var isNew := Back(s).value.way.None?;
        var s1 := if isNew then LookUp(s, now) else s;
        (if isNew then [V.Look(Back(s).value.addr, now)] else [])
        + (if LineOf(s1, Back(s1).value).valid then HitOps(s1, now) else [])
    case Refilled(now) => [V.Refill(Back(s).value.addr, Back(s).value.way.value, now)]
    case _ => []
  }

  ghost function OpsOfRun(g: Geometry, policy: Policy, depth: nat, writeBack: bool, es: seq<Event>): seq<V.Op>
    requires GoodGeometry(g) && depth > 0 && Run(PipeCache.Init(g, policy, depth, writeBack), es).Some?
    decreases |es|
  {
    if es == [] then []
    else
      var before := es[..|es| - 1];
      OpsOfRun(g, policy, depth, writeBack, before) + OpsOf(Run(PipeCache.Init(g, policy, depth, writeBack), before).value, es[|es| - 1])
  }

  // ---------------------------------------------------------------- the cache follows its operations

  ghost predicate Follows(c: Cache, os: seq<V.Op>, c': Cache) {
    Shaped(c) && V.AllFit(c.geo, os) && V.After(c, os) == c'
  }

  lemma {:induction false} FollowsThen(c: Cache, os: seq<V.Op>, d: Cache, ps: seq<V.Op>, e: Cache)
    requires Follows(c, os, d) && Follows(d, ps, e)
    ensures Follows(c, os + ps, e)
  {
    hide V.Apply, Shaped;
    if ps == [] {
      assert os + ps == os;
    } else {
      var n := |ps| - 1;
      assert (os + ps)[..|os| + n] == os + ps[..n];
      FollowsThen(c, os, d, ps[..n], V.After(d, ps[..n]));
    }
  }

  lemma FollowsOne(c: Cache, o: V.Op)
    requires Shaped(c) && V.Fits(c.geo, o)
    ensures Follows(c, [o], V.Apply(c, o)) && Follows(c, [], c)
  {
    assert [o][..0] == [];
  }

  lemma LookFollows(s: State, now: nat)
    requires Shape(s) && Back(s).Some?
    ensures Follows(s.cache, [V.Look(Back(s).value.addr, now)], LookUp(s, now).cache)
  {
    hide V.After, Follows, Access, SetOf, TagOf, VictimWay, Probe;
    FollowsOne(s.cache, V.Look(Back(s).value.addr, now));
  }

  lemma AdvanceFollows(s: State, now: nat)
    requires Shape(s)
    ensures Follows(s.cache, AdvanceOps(s, now), Advance(s, now).cache)
  {
    hide V.After, Follows, SetOf, TagOf, LookUp, InvalidateAll, Empty, Probe;
    FollowsOne(s.cache, V.Flush);
    var s1 := s.(pipe := ShiftPipe(s.pipe));
    if Back(s1).Some? { LookFollows(s1, now); }
  }

  lemma HitFollows(s: State, now: nat)
    requires Shape(s) && Back(s).Some? && Back(s).value.way.Some?
    ensures Shape(HandleHit(s)) && Follows(s.cache, HitOps(s, now), Advance(HandleHit(s), now).cache)
  {
    hide V.After, Follows, TagOf, Advance, AdvanceOps;
    HandleHitShape(s);
    AdvanceFollows(HandleHit(s), now);
    var e := Back(s).value;
    assert [] + AdvanceOps(HandleHit(s), now) == AdvanceOps(HandleHit(s), now);
    if e.isWrite {
      var mark := V.Mark(V.Index(s.cache.geo, e.addr), e.way.value);
      FollowsOne(s.cache, mark);
      FollowsThen(s.cache, [mark], HandleHit(s).cache, AdvanceOps(HandleHit(s), now), Advance(HandleHit(s), now).cache);
    }
  }

  lemma TickFollows(s: State, now: nat)
    requires UpdateOk(s) && Awake(s) && Back(s).Some?
    ensures Follows(s.cache, OpsOf(s, Tick(now)), Update(s, now).state.cache)
  {
    hide V.After, Follows, SetOf, TagOf, Advance, AdvanceOps, HitOps, HandleHit, LookUp, Probe, Awake;
    LookUpShape(s, now);
    var isNew := Back(s).value.way.None?;
    var s1 := if isNew then LookUp(s, now) else s;
    var rest := if LineOf(s1, Back(s1).value).valid then HitOps(s1, now) else [];
    HitFollows(s1, now);
    FollowsOne(s1.cache, V.Flush);
    assert [] + rest == rest;
    if isNew {
      LookFollows(s, now);
      FollowsThen(s.cache, [V.Look(Back(s).value.addr, now)], s1.cache, rest, Update(s, now).state.cache);
    }
  }

  lemma StepFollows(s: State, e: Event)
    requires Possible(s, e) && AssertsHold(s, e) && Shape(s)
    ensures Follows(s.cache, OpsOf(s, e), Step(s, e).cache)
  {
    hide V.After, Follows, Access, Fill, SetOf, TagOf, Advance, AdvanceOps, HitOps, HandleHit, LookUp, MissStep, Probe, Awake, Ready;
    FollowsOne(s.cache, V.Flush);
    match e {
      case Tick(now) =>
        if Back(s).None? { AdvanceFollows(s, now); } else { TickFollows(s, now); }
      case Refilled(now) => FollowsOne(s.cache, V.Refill(Back(s).value.addr, Back(s).value.way.value, now));
      case _ =>
    }
  }

  lemma {:induction false} RunFollows(g: Geometry, policy: Policy, depth: nat, writeBack: bool, es: seq<Event>)
    requires GoodGeometry(g) && depth > 0 && Run(PipeCache.Init(g, policy, depth, writeBack), es).Some?
    ensures Follows(CacheBase.Init(g, policy, writeBack && g.assoc > 1), OpsOfRun(g, policy, depth, writeBack, es),
                    Run(PipeCache.Init(g, policy, depth, writeBack), es).value.cache)
    decreases |es|
  {
    hide V.After, Follows, Step, OpsOf, Possible, AssertsHold, FlagsOk, LogOk, CleanOk;
    var c0 := CacheBase.Init(g, policy, writeBack && g.assoc > 1);
    if es == [] {
      FollowsOne(c0, V.Flush);
    } else {
      var before, e := es[..|es| - 1], es[|es| - 1];
      var s := Run(PipeCache.Init(g, policy, depth, writeBack), before).value;
      RunFollows(g, policy, depth, writeBack, before);
      RunInv(g, policy, depth, writeBack, before);
      StepFollows(s, e);
      FollowsThen(c0, OpsOfRun(g, policy, depth, writeBack, before), s.cache, OpsOf(s, e), Step(s, e).cache);
    }
  }

  /**
   The way that the pipelined cache empties for a miss. A write-back cache of several ways looks at the set of
   the previous lookup, any other at the set of the miss: the lowest empty way, else the way used longest ago
   under LRU, or the one the touches tell under PLRU.
   */
  lemma MissEmpties(g: Geometry, policy: Policy, depth: nat, writeBack: bool, es: seq<Event>, now: nat)
    requires GoodGeometry(g) && depth > 0 && V.PolicyFits(policy, g.assoc) && Run(PipeCache.Init(g, policy, depth, writeBack), es).Some?
    requires var s := Run(PipeCache.Init(g, policy, depth, writeBack), es).value;
      Shape(s) && Back(s).Some? && Back(s).value.way.None? && !Probe(s.cache, Back(s).value.addr)
    ensures var s := Run(PipeCache.Init(g, policy, depth, writeBack), es).value;
      var s' := LookUp(s, now);
      var os := OpsOfRun(g, policy, depth, writeBack, es);
      var c0 := CacheBase.Init(g, policy, writeBack && g.assoc > 1);
      var from := V.Index(g, if writeBack && g.assoc > 1 && V.LastLook(os).Some? then V.LastLook(os).value else Back(s).value.addr);
      && Follows(c0, os, s.cache)
      && s'.pipe != [] && Back(s').Some? && Back(s').value.way.Some?
      && var w := Back(s').value.way.value;
         && w < g.assoc
         && !s'.cache.sets[V.Index(g, Back(s).value.addr)][w].valid
         && (V.FirstHole(s.cache.sets[from], w) || V.Full(s.cache.sets[from]))
         && (V.Full(s.cache.sets[from]) ==>
               var us := V.Touches(c0, os, from);
               if policy.Lru? then V.UsedFirst(us, g.assoc, w) else V.OutOfTouch(g.assoc, V.WaysOf(us), w))
  {
    hide V.After, OpsOfRun, Run, V.FirstHole, V.Full, V.UsedFirst, V.OutOfTouch, V.Touches, V.LastLook, Inv, VictimWay, TagOf;
    var s := Run(PipeCache.Init(g, policy, depth, writeBack), es).value;
    RunFollows(g, policy, depth, writeBack, es);
    V.VictimByHistory(g, policy, writeBack && g.assoc > 1, OpsOfRun(g, policy, depth, writeBack, es), Back(s).value.addr, now);
    LookUpWay(s, now);
  }

  lemma LookUpWay(s: State, now: nat)
    requires Shape(s) && Back(s).Some? && !Probe(s.cache, Back(s).value.addr)
    ensures var s' := LookUp(s, now);
      var w := Access(s.cache, Back(s).value.addr, now).1;
      && Shape(s') && s'.cache.geo == s.cache.geo
      && Back(s') == Some(Back(s).value.(way := Some(w)))
      && w < s.cache.geo.assoc
      && !s'.cache.sets[V.Index(s.cache.geo, Back(s).value.addr)][w].valid
  {
    hide TagOf, VictimWay;
    LookUpShape(s, now);
  }
}

/** The pipelined cache as the source has it: an object that scans and rewrites its sets and shifts its pipe in place. */
module PipeCacheClass {
  import opened Common
  import opened CacheBase
  import P = PipeCache
  import R = PipeCacheRuns

  class PipeCacheModel {
    const geo: Geometry
    const policy: Policy
    const lag: bool
    const writeBack: bool
    var sets: seq<seq<Line>>
    var bits: seq<Bits>
    var lagSet: Option<nat>
    var pipe: seq<Option<P.Entry>>
    var rWaiting: bool
    var wWaiting: bool
    var isShifted: bool
    var isReplay: bool
    var pendingFlush: bool
    var pendingFill: bool
    var pendingEvict: bool
    var evictAddr: nat
    ghost var log: P.Log  // what the run has seen so far; the simulator does not keep it

    /** The value of this object as a state of the PipeCache machine. */
    ghost function State(): P.State
      reads this
    {
      P.State(Store(), writeBack, pipe, rWaiting, wWaiting, isShifted, isReplay, pendingFlush, pendingFill, pendingEvict, evictAddr, log)
    }

    ghost function Store(): Cache
      reads this
    {
      Cache(geo, policy, lag, sets, bits, lagSet)
    }

    constructor (g: Geometry, p: Policy, depth: nat, wb: bool)
      requires GoodGeometry(g) && depth > 0
      ensures State() == P.Init(g, p, depth, wb) && R.Reachable(State())
    {
      geo, policy, lag, writeBack := g, p, wb && g.assoc > 1, wb;
      sets := seq(g.sets, _ => seq(g.assoc, _ => EMPTY));
      bits := seq(g.sets, _ => Bits(false, false, false));
      lagSet := None;
      pipe := seq(depth, _ => None);
      rWaiting, wWaiting, isShifted, isReplay := false, false, true, false;
      pendingFlush, pendingFill, pendingEvict, evictAddr := false, false, false, 0;
      log := P.Log([], [], 0, 0, 0, 0, [], []);
      new;
      R.InitReachable(g, p, depth, wb);
    }

    // -------------------------------------------------------------- CacheBase

    /** The way of the set that holds the block, or assoc if none does. */
    method FindWay(si: nat, tag: nat) returns (w: nat)
      requires si < |sets|
      ensures w == Find(sets[si], tag)
    {
      var lines := sets[si];
      w := 0;
      while w < |lines|
        invariant w <= |lines| && Find(lines, tag) == w + Find(lines[w..], tag)
      {
        if lines[w].valid && lines[w].tag == tag { return; }
        w := w + 1;
      }
    }

    /** probe */
    method Present(addr: nat) returns (hit: bool)
      requires Shaped(Store())
      ensures hit == Probe(Store(), addr)
    {
      var si := SetOf(geo, addr);
      var w := FindWay(si, TagOf(geo, addr));
      hit := w < |sets[si]|;
    }

    method EmptyWay(si: nat) returns (w: nat)
      requires si < |sets|
      ensures w == FirstInvalid(sets[si])
    {
      var lines := sets[si];
      w := 0;
      while w < |lines|
        invariant w <= |lines| && FirstInvalid(lines) == w + FirstInvalid(lines[w..])
      {
        if !lines[w].valid { return; }
        w := w + 1;
      }
    }

    /** getVictim: the least recent stamp by LRU, or the way that the tree bits point to. */
    method GetVictim(si: nat) returns (w: nat)
      requires Shaped(Store()) && si < geo.sets
      ensures w == PolicyVictim(Store(), si)
    {
      if policy == Plru { return PlruVictim(geo.assoc, bits[si]); }
      var lines := sets[si];
      w := 0;
      var i := 1;
      while i < |lines|
        invariant 1 <= i <= |lines| && w < i
        invariant forall j :: 0 <= j < i ==> lines[w].stamp <= lines[j].stamp
        invariant forall j :: 0 <= j < w ==> lines[w].stamp < lines[j].stamp
      {
        if lines[i].stamp < lines[w].stamp { w := i; }
        i := i + 1;
      }
    }

    /** miss_victim_way, reduced to a way of the set */
    method MissVictimWay(si: nat) returns (w: nat)
      requires Shaped(Store()) && si < geo.sets
      ensures w == VictimWay(Store(), si)
    {
      var from := if lag && lagSet.Some? then lagSet.value else si;
      w := EmptyWay(from);
      if w == |sets[from]| { w := GetVictim(from); }
      w := w % geo.assoc;
    }

    /** onHit and onFill */
    method TouchLine(si: nat, w: nat, now: nat)
      requires Shaped(Store()) && si < geo.sets && w < geo.assoc
      modifies this`sets, this`bits
      ensures Store() == Touch(old(Store()), si, w, now)
    {
      match policy {
        case Lru => sets := sets[si := sets[si][w := sets[si][w].(stamp := now)]];
        case Plru => bits := bits[si := PlruTouch(geo.assoc, bits[si], w)];
      }
    }

    /** access */
    method LookupLine(addr: nat, now: nat) returns (w: nat)
      requires Shaped(Store())
      modifies this`sets, this`bits, this`lagSet
      ensures (Store(), w) == Access(old(Store()), addr, now)
    {
      hide SetOf, TagOf, VictimWay, Touch;
      var si := SetOf(geo, addr);
      w := FindWay(si, TagOf(geo, addr));
      if w < |sets[si]| {
        if lag { lagSet := Some(si); }
        TouchLine(si, w, now);
      } else {
        w := MissVictimWay(si);
        if lag { lagSet := Some(si); }
        sets := sets[si := sets[si][w := Invalidated(sets[si][w])]];
      }
    }

    /** handle_fill */
    method HandleFill(addr: nat, w: nat, now: nat)
      requires Shaped(Store()) && w < geo.assoc
      modifies this`sets, this`bits
      ensures Store() == Fill(old(Store()), addr, w, now)
    {
      hide SetOf, TagOf, Touch;
      var si := SetOf(geo, addr);
      sets := sets[si := sets[si][w := Line(true, false, TagOf(geo, addr), now)]];
      TouchLine(si, w, now);
    }

    // -------------------------------------------------------------- PipeCache

    /** read_req, and write_req of a write-back cache */
    method Request(addr: nat, isWrite: bool, uid: nat)
      requires P.Ready(State()) && R.Reachable(State()) && (isWrite ==> writeBack)
      modifies this`pipe, this`isShifted, this`log
      ensures P.RequestOk(old(State())) && State() == P.Request(old(State()), addr, isWrite, uid) && R.Reachable(State())
    {
      ghost var e := R.Event.Cpu(addr, isWrite, uid);
      R.StepReachable(State(), e);
      hide R.Reachable;
      pipe := pipe[0 := Some(P.Entry(addr, isWrite, uid, None))];
      isShifted := false;
      log := log.(accepted := log.accepted + [uid]);
    }

    method FlushAll()
      requires R.Reachable(State())
      modifies this`pendingFlush
      ensures State() == old(State()).(pendingFlush := true) && R.Reachable(State())
    {
      R.StepReachable(State(), R.Event.FlushAll);
      hide R.Reachable;
      pendingFlush := true;
    }

    method SaveEvictInfo(addr: nat)
      requires P.Shape(State())
      modifies this`pendingEvict, this`evictAddr
      ensures State() == P.SaveEvict(old(State()), addr)
    {
      hide SetOf, TagOf, VictimWay;
      pendingEvict := false;
      if !writeBack { return; }
      var si := SetOf(geo, addr);
      var w := MissVictimWay(si);
      if sets[si][w].valid && sets[si][w].dirty {
        pendingEvict := true;
        evictAddr := sets[si][w].tag;
      }
    }

    /** save_evict_info, then access for the last entry of the pipe. */
    method LookUpBack(now: nat)
      requires P.Shape(State()) && P.Back(State()).Some?
      modifies this`sets, this`bits, this`lagSet, this`pendingEvict, this`evictAddr, this`pipe, this`log
      ensures State() == P.LookUp(old(State()), now) && P.Shape(State()) && P.Back(State()).Some? && P.Back(State()).value.way.Some?
    {
      hide SetOf, TagOf, VictimWay, Access, Find, P.SaveEvict;
      P.LookUpShape(State(), now);
      ghost var s := State();
      var n := |pipe| - 1;
      var e := pipe[n].value;
      SaveEvictInfo(e.addr);
      var w := LookupLine(e.addr, now);
      log := P.LookUp(s, now).log;
      pipe := pipe[n := Some(e.(way := Some(w)))];
    }

    /** handle_hit: the request at the end of the pipe is answered and leaves. */
    method HandleHit() returns (answered: nat)
      requires P.Shape(State()) && P.Back(State()).Some? && P.Back(State()).value.way.Some?
      modifies this`sets, this`pipe, this`isReplay, this`log
      ensures State() == P.HandleHit(old(State())) && answered == P.Back(old(State())).value.uid
      ensures P.Shape(State()) && P.Back(State()).None?
    {
      hide SetOf, TagOf;
      P.HandleHitShape(State());
      var n := |pipe| - 1;
      var e := pipe[n].value;
      answered := e.uid;
      if e.isWrite {
        var si, w := SetOf(geo, e.addr), e.way.value;
        sets := sets[si := sets[si][w := sets[si][w].(dirty := true)]];
      }
      log := log.(answered := log.answered + [e.uid], replays := log.replays + (if isReplay then 1 else 0));
      isReplay := false;
      pipe := pipe[n := None];
    }

    /** The loops of handle_flush over sets and lines. */
    method InvalidateSets()
      requires Shaped(Store())
      modifies this`sets
      ensures State() == old(State()).(cache := InvalidateAll(old(Store())))
    {
      var was := sets;
      var t := 0;
      while t < |sets|
        invariant t <= |sets| == |was|
        invariant forall i :: 0 <= i < |was| ==> |sets[i]| == |was[i]|
        invariant forall i, j :: 0 <= i < |was| && 0 <= j < |was[i]| ==> sets[i][j] == if i < t then Invalidated(was[i][j]) else was[i][j]
      {
        var lines := sets[t];
        var w := 0;
        while w < |lines|
          invariant w <= |lines| == |was[t]|
          invariant forall j :: 0 <= j < |lines| ==> lines[j] == if j < w then Invalidated(was[t][j]) else was[t][j]
        {
          lines := lines[w := Invalidated(lines[w])];
          w := w + 1;
        }
        sets := sets[t := lines];
        t := t + 1;
      }
      ghost var c := InvalidateAll(Cache(geo, policy, lag, was, bits, lagSet));
      assert forall i :: 0 <= i < |was| ==> sets[i] == c.sets[i];
      assert sets == c.sets;
    }

    method HandleFlush()
      requires Shaped(Store())
      modifies this`sets, this`pipe, this`isShifted, this`isReplay, this`rWaiting, this`wWaiting, this`pendingFlush, this`pendingFill, this`pendingEvict
      ensures State() == P.HandleFlush(old(State()))
    {
      hide InvalidateAll, P.NoEntries;
      InvalidateSets();
      ClearPipe();
    }

    method ClearPipe()
      modifies this`pipe, this`isShifted, this`isReplay, this`rWaiting, this`wWaiting, this`pendingFlush, this`pendingFill, this`pendingEvict
      ensures State() == old(State()).(
        pipe := P.NoEntries(|old(pipe)|), isShifted := true, isReplay := false, rWaiting := false, wWaiting := false,
        pendingFlush := false, pendingFill := false, pendingEvict := false)
    {
      hide P.NoEntries;
      pipe := P.NoEntries(|pipe|);
      isShifted, isReplay, rWaiting, wWaiting := true, false, false, false;
      pendingFlush, pendingFill, pendingEvict := false, false, false;
    }

    method PipeEmpty() returns (empty: bool)
      ensures empty == P.Empty(pipe)
    {
      var i := 0;
      while i < |pipe|
        invariant i <= |pipe| && forall j :: 0 <= j < i ==> pipe[j].None?
      {
        if pipe[i].Some? { return false; }
        i := i + 1;
      }
      empty := true;
    }

    /** Every entry moves one place toward the end. The last place is free; with one place nothing moves. */
    method ShiftEntries()
      requires pipe != [] && pipe[|pipe| - 1].None?
      modifies this`pipe
      ensures pipe == P.ShiftPipe(old(pipe))
    {
      var was := pipe;
      var i := |pipe| - 1;
      while i > 0
        invariant 0 <= i < |pipe| == |was|
        invariant forall j :: 0 <= j < i ==> pipe[j] == was[j]
        invariant i < |was| - 1 ==> pipe[i].None?
        invariant i == |was| - 1 ==> pipe == was
        invariant forall j :: i < j < |was| ==> pipe[j] == was[j - 1]
      {
        pipe := pipe[i := pipe[i - 1]][i - 1 := None];
        i := i - 1;
      }
    }

    method Shift()
      requires P.Shape(State()) && P.Back(State()).None?
      modifies this`pipe
      ensures P.Shape(State()) && State() == old(State()).(pipe := P.ShiftPipe(old(pipe)))
    {
      ShiftEntries();
    }

    /** The new last entry is looked at once; a miss is announced in the same tick. */
    method ProbeBack(now: nat)
      requires P.Shape(State())
      modifies this
      ensures var s := old(State());
        State() ==
          if P.Back(s).Some? && P.Back(s).value.way.None? && !Probe(s.cache, P.Back(s).value.addr)
          then P.LookUp(s, now).(pendingFill := true) else s.(isShifted := true)
    {
      hide SetOf, TagOf, P.LookUp, Probe;
      var n := |pipe| - 1;
      if pipe[n].Some? && pipe[n].value.way.None? {
        var hit := Present(pipe[n].value.addr);
        if !hit {
          AnnounceMiss(now);
          return;
        }
      }
      isShifted := true;
    }

    method AnnounceMiss(now: nat)
      requires P.Shape(State()) && P.Back(State()).Some?
      modifies this
      ensures State() == P.LookUp(old(State()), now).(pendingFill := true)
    {
      hide P.LookUp;
      LookUpBack(now);
      pendingFill := true;
    }

    /** The second half of update_impl. */
    method AdvancePipe(now: nat)
      requires P.Shape(State()) && P.Back(State()).None?
      modifies this
      ensures State() == P.Advance(old(State()), now)
    {
      hide SetOf, TagOf, P.LookUp, P.HandleFlush, P.Empty, Probe, P.ShiftPipe;
      var empty := PipeEmpty();
      if pendingFlush && empty {
        HandleFlush();
      } else {
        Shift();
        ProbeBack(now);
      }
    }

    /** The miss path of update_impl. */
    method MissPath() returns (sent: Option<P.MemReq>)
      requires P.Shape(State()) && P.Back(State()).Some?
      modifies this`pendingFill, this`pendingEvict, this`wWaiting, this`rWaiting, this`isReplay, this`log
      ensures P.Result(State(), sent) == P.MissStep(old(State()))
    {
      sent := None;
      if !pendingFill {
        pendingFill := true;
        return;
      }
      if pendingEvict {
        if wWaiting { return; }
        sent := Some(P.MemReq(false, evictAddr, geo.lineBytes / 4));
        wWaiting := true;
        pendingEvict := false;
        log := log.(written := log.written + [evictAddr], evictsNow := log.evictsNow + 1);
        return;
      }
      if wWaiting { return; }
      pendingFill := false;
      sent := Some(P.MemReq(true, pipe[|pipe| - 1].value.addr, geo.lineBytes / 4));
      rWaiting := true;
      isReplay := true;
      log := log.(refills := log.refills + 1);
    }

    method UpdateBody(now: nat) returns (sent: Option<P.MemReq>)
      requires P.UpdateOk(State())
      modifies this
      ensures P.Result(State(), sent) == P.Update(old(State()), now)
    {
      hide SetOf, TagOf, P.LookUp, P.HandleHit, P.Advance, P.MissStep;
      sent := None;
      if pipe[|pipe| - 1].Some? {
        if pipe[|pipe| - 1].value.way.None? { LookUpBack(now); }
        var e := pipe[|pipe| - 1].value;
        if sets[SetOf(geo, e.addr)][e.way.value].valid {
          var uid := HandleHit();
        } else {
          isReplay := false;
          sent := MissPath();
          return;
        }
      }
      AdvancePipe(now);
    }

    /** update_impl, for a cache that is due */
    method Update(now: nat) returns (sent: Option<P.MemReq>)
      requires R.Reachable(State()) && P.Awake(State())
      modifies this
      ensures P.UpdateOk(old(State())) && P.Result(State(), sent) == P.Update(old(State()), now) && R.Reachable(State())
    {
      R.StepReachable(State(), R.Event.Tick(now));
      hide R.Reachable, P.Update, P.UpdateOk, P.Awake;
      sent := UpdateBody(now);
    }

    /** recv_mem_resp for the refill and for the write-back */
    method RecvMemResp(isRead: bool, now: nat)
      requires R.Reachable(State()) && (if isRead then rWaiting else wWaiting)
      modifies this`sets, this`bits, this`rWaiting, this`wWaiting
      ensures isRead ==> P.ReadRespOk(old(State())) && State() == P.ReadResp(old(State()), now)
      ensures !isRead ==> State() == P.WriteResp(old(State()))
      ensures R.Reachable(State())
    {
      R.StepReachable(State(), if isRead then R.Event.Refilled(now) else R.Event.Written);
      hide R.Reachable, Fill;
      if isRead {
        rWaiting := false;
        var e := pipe[|pipe| - 1].value;
        HandleFill(e.addr, e.way.value, now);
      } else {
        wWaiting := false;
      }
    }
  }
}

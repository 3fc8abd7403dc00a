/**
 The pipelined blocking cache: detect a miss, write back a dirty victim, wait, read the block, replay.
 Prefetching is off and hits answer at once, as the simulator configures it. The tick at which a
 pending update runs is left open.
 */
module PipeCache {
  import opened Common
  import opened CacheBase

  /** A request in the pipe; `line` is the way it was given once it has been looked up. */
  datatype Entry = Entry(addr: nat, isWrite: bool, uid: nat, way: Option<nat>)

  datatype MemReq = MemReq(isRead: bool, addr: nat, words: nat)

  /**
   History of a run: requests taken and answered, memory requests of the miss in progress and of all
   misses, and the dirty blocks that replacement took out.
   */
  datatype Log = Log(
    accepted: seq<nat>,
    answered: seq<nat>,
    misses: nat,
    refills: nat,
    replays: nat,
    evictsNow: nat,
    dropped: seq<nat>,
    written: seq<nat>)

  datatype State = State(
    cache: Cache,
    writeBack: bool,
    pipe: seq<Option<Entry>>,
    rWaiting: bool,
    wWaiting: bool,
    isShifted: bool,
    isReplay: bool,
    pendingFlush: bool,
    pendingFill: bool,
    pendingEvict: bool,
    evictAddr: nat,
    log: Log)

  function Init(g: Geometry, policy: Policy, depth: nat, writeBack: bool): State
    requires GoodGeometry(g) && depth > 0
  {
    State(CacheBase.Init(g, policy, writeBack && g.assoc > 1), writeBack, seq(depth, _ => None),
          false, false, true, false, false, false, false, 0, Log([], [], 0, 0, 0, 0, [], []))
  }

  function Back(s: State): Option<Entry>
    requires s.pipe != []
  {
    s.pipe[|s.pipe| - 1]
  }

  predicate Ready(s: State) {
    && s.isShifted && !s.pendingFlush
    && (s.writeBack ==> !s.rWaiting && !s.wWaiting && !s.pendingFill && !s.isReplay)
  }

  /** do_update runs only when next_update is not infinite. */
  predicate Awake(s: State) {
    !(s.rWaiting && !s.pendingFill)
  }

  predicate Shape(s: State) {
    && Shaped(s.cache) && s.pipe != []
    && forall i :: 0 <= i < |s.pipe| && s.pipe[i].Some? && s.pipe[i].value.way.Some? ==>
         s.pipe[i].value.way.value < s.cache.geo.assoc
  }

  function LineOf(s: State, e: Entry): Line
    requires Shape(s) && e.way.Some? && e.way.value < s.cache.geo.assoc
  {
    s.cache.sets[SetOf(s.cache.geo, e.addr)][e.way.value]
  }

  // ---------------------------------------------------------------- CPU side

  /** read_req and write_req (write-back) */
  function Request(s: State, addr: nat, isWrite: bool, uid: nat): State
    requires s.pipe != []
  {
    s.(pipe := s.pipe[0 := Some(Entry(addr, isWrite, uid, None))], isShifted := false,
       log := s.log.(accepted := s.log.accepted + [uid]))
  }

  /** The asserts of read_req. */
  predicate RequestOk(s: State) {
    s.isShifted && s.pipe != [] && s.pipe[0].None?
  }

  // ---------------------------------------------------------------- memory side

  /** save_evict_info, from the victim that the lookup after it will choose. */
  function SaveEvict(s: State, addr: nat): State
    requires Shape(s)
  {
    if !s.writeBack then s.(pendingEvict := false)
    else
      var si := SetOf(s.cache.geo, addr);
      var l := s.cache.sets[si][VictimWay(s.cache, si)];
      if l.valid && l.dirty then s.(pendingEvict := true, evictAddr := l.tag) else s.(pendingEvict := false)
  }

  /** save_evict_info and access for the entry at the end of the pipe. */
  function LookUp(s: State, now: nat): State
    requires Shape(s) && Back(s).Some?
  {
    var e := Back(s).value;
    var s1 := SaveEvict(s, e.addr);
    var hit := Probe(s.cache, e.addr);
    var si := SetOf(s.cache.geo, e.addr);
    var (cache, way) := Access(s.cache, e.addr, now);
    var victim := s.cache.sets[si][VictimWay(s.cache, si)];
    s1.(cache := cache,
        pipe := s.pipe[|s.pipe| - 1 := Some(e.(way := Some(way)))],
        log := if hit then s.log else s.log.(
          misses := s.log.misses + 1,
          evictsNow := 0,
          dropped := s.log.dropped + if victim.valid && victim.dirty then [victim.tag] else []))
  }

  /** handle_hit: the answer, and the dirty bit of a write. */
  function HandleHit(s: State): State
    requires Shape(s) && Back(s).Some? && Back(s).value.way.Some?
  {
    var e := Back(s).value;
    var cache := if e.isWrite then SetDirty(s.cache, SetOf(s.cache.geo, e.addr), e.way.value) else s.cache;
    s.(cache := cache,
       pipe := s.pipe[|s.pipe| - 1 := None],
       isReplay := false,
       log := s.log.(answered := s.log.answered + [e.uid], replays := s.log.replays + (if s.isReplay then 1 else 0)))
  }

  /** The asserts at the top of update_impl. */
  predicate UpdateOk(s: State) {
    Shape(s) && (s.isReplay ==> Back(s).Some? && Back(s).value.way.Some? && LineOf(s, Back(s).value).valid)
  }

  /** What one update leaves: the state, and a request to memory if one was sent. */
  datatype Result = Result(state: State, sent: Option<MemReq>)

  function Words(s: State): nat {
    s.cache.geo.lineBytes / 4
  }

  /** The miss path: announce, evict, wait, read. */
  function MissStep(s: State): Result
    requires Shape(s) && Back(s).Some?
  {
    if !s.pendingFill then Result(s.(pendingFill := true), None)
    else if s.pendingEvict then
      if s.wWaiting then Result(s, None)
      else
        Result(s.(wWaiting := true, pendingEvict := false,
                  log := s.log.(written := s.log.written + [s.evictAddr], evictsNow := s.log.evictsNow + 1)),
               Some(MemReq(false, s.evictAddr, Words(s))))
    else if s.wWaiting then Result(s, None)
    else
      Result(s.(pendingFill := false, rWaiting := true, isReplay := true, log := s.log.(refills := s.log.refills + 1)),
             Some(MemReq(true, Back(s).value.addr, Words(s))))
  }

  function NoEntries(n: nat): seq<Option<Entry>> {
    seq(n, _ => None)
  }

  /** handle_flush; it runs only on an empty pipe. */
  function HandleFlush(s: State): State {
    s.(cache := InvalidateAll(s.cache), pipe := NoEntries(|s.pipe|), isShifted := true, isReplay := false,
       rWaiting := false, wWaiting := false, pendingFlush := false, pendingFill := false, pendingEvict := false)
  }

  /** The pipe moves by one place. */
  function ShiftPipe(p: seq<Option<Entry>>): (q: seq<Option<Entry>>)
    requires p != []
    ensures |q| == |p|
  {
    if |p| == 1 then p else [None] + p[..|p| - 1]
  }

  predicate Empty(p: seq<Option<Entry>>) {
    forall i :: 0 <= i < |p| ==> p[i].None?
  }

  /** The second half of update_impl: flush, or shift and look at the new entry at once. */
  function Advance(s: State, now: nat): State
    requires Shape(s)
  {
    if s.pendingFlush && Empty(s.pipe) then HandleFlush(s)
    else
      var s1 := s.(pipe := ShiftPipe(s.pipe));
      if Back(s1).Some? && Back(s1).value.way.None? && !Probe(s1.cache, Back(s1).value.addr) then
        LookUp(s1, now).(pendingFill := true)
      else s1.(isShifted := true)
  }

  function Update(s: State, now: nat): Result
    requires UpdateOk(s)
  {
    if Back(s).None? then Result(Advance(s, now), None)
    else
      LookUpShape(s, now);
      var s1 := if Back(s).value.way.None? then LookUp(s, now) else s;
      if LineOf(s1, Back(s1).value).valid then
        HandleHitShape(s1);
        Result(Advance(HandleHit(s1), now), None)
      else MissStep(s1.(isReplay := false))
  }

  lemma LookUpShape(s: State, now: nat)
    requires Shape(s) && Back(s).Some?
    ensures Shape(LookUp(s, now)) && Back(LookUp(s, now)).Some? && Back(LookUp(s, now)).value.way.Some?
  {
    hide SetOf, TagOf;
  }

  lemma HandleHitShape(s: State)
    requires Shape(s) && Back(s).Some? && Back(s).value.way.Some?
    ensures Shape(HandleHit(s))
  {
    hide SetOf, TagOf;
  }

  /** The asserts of recv_mem_resp. */
  predicate ReadRespOk(s: State) {
    Shape(s) && s.rWaiting && Back(s).Some? && Back(s).value.way.Some?
  }

  /** recv_mem_resp for the refill */
  function ReadResp(s: State, now: nat): State
    requires ReadRespOk(s)
  {
    var e := Back(s).value;
    s.(rWaiting := false, cache := Fill(s.cache, e.addr, e.way.value, now))
  }

  /** recv_mem_resp for the write-back */
  function WriteResp(s: State): State {
    s.(wWaiting := false)
  }
}

/** SDRAM timing: open rows per host and bank, periodic refresh, one controller per host, clock scaling. */
module Sdram {
  import opened Common
  import opened Arith

  const DEV_MHZ: nat := 100
  const N_HOSTS: nat := 3
  const N_BANKS: nat := 4
  const T_RCD: nat := 2
  const REFRESH_PERIOD: nat := 781
  const PER_WORD: nat := 2
  const ACT_COST: nat := 1 + T_RCD
  const PRE_COST: nat := 1
  const RD_BASE: nat := 2
  const WR_BASE: nat := 0

  function BankOf(addr: nat): (b: nat)
    ensures b < N_BANKS
  {
    addr / 1024 % 4
  }

  function RowOf(addr: nat): nat {
    addr / 4096 % 8192
  }

  function HostOf(id: nat): (h: nat)
    ensures h < N_HOSTS
  {
    if id < N_HOSTS - 1 then id else N_HOSTS - 1
  }

  datatype Req = Req(addr: nat, len: nat, isWrite: bool, tick: nat, id: nat)

  datatype Outcome = Hit | Miss | Conflict

  type PerHost = s: seq<nat> | |s| == N_HOSTS witness [0, 0, 0]

  /** `rows` maps (host, bank) to the open row. Ticks and counters do not wrap. */
  datatype State = State(
    ratio: nat,
    ctrlFree: PerHost,
    nextRefresh: nat,
    rows: map<(nat, nat), nat>,
    hits: nat,
    misses: nat,
    conflicts: nat,
    refreshes: nat,
    stall: nat)

  function Init(ratio: nat): State {
    State(ratio, [0, 0, 0], REFRESH_PERIOD, map[], 0, 0, 0, 0, 0)
  }

  function ResetStats(s: State): State {
    Init(s.ratio)
  }

  // ---------------------------------------------------------------- refresh

  /** All refreshes up to dev in one go. */
  function CheckRefresh(s: State, dev: nat): State {
    if dev < s.nextRefresh then s
    else
      var n := (dev - s.nextRefresh) / REFRESH_PERIOD + 1;
      s.(rows := map[], nextRefresh := s.nextRefresh + n * REFRESH_PERIOD, refreshes := s.refreshes + n)
  }

  /** The same refreshes, one period at a time. */
  function RefreshEach(s: State, dev: nat): State
    decreases if dev < s.nextRefresh then 0 else dev - s.nextRefresh + 1
  {
    if dev < s.nextRefresh then s
    else RefreshEach(s.(rows := map[], nextRefresh := s.nextRefresh + REFRESH_PERIOD, refreshes := s.refreshes + 1), dev)
  }

  /** Catching up in one batch equals refreshing once per elapsed period. */
  lemma {:induction false} BatchRefresh(s: State, dev: nat)
    ensures CheckRefresh(s, dev) == RefreshEach(s, dev)
    decreases if dev < s.nextRefresh then 0 else dev - s.nextRefresh + 1
  {
    if dev >= s.nextRefresh {
      var s1 := s.(rows := map[], nextRefresh := s.nextRefresh + REFRESH_PERIOD, refreshes := s.refreshes + 1);
      BatchRefresh(s1, dev);
    }
  }

  // ---------------------------------------------------------------- access

  function Dev(s: State, tick: nat): nat
    requires s.ratio > 0
  {
    tick / s.ratio
  }

  function OutcomeIn(s: State, r: Req): Outcome
    requires s.ratio > 0
  {
    var key := (HostOf(r.id), BankOf(r.addr));
    if key !in s.rows then Miss else if s.rows[key] != RowOf(r.addr) then Conflict else Hit
  }

  function Extra(o: Outcome): nat {
    match o
    case Hit => 0
    case Miss => ACT_COST
    case Conflict => PRE_COST + ACT_COST
  }

  /** Device cycles of one request by the documented formula. */
  function DocCycles(len: nat, isWrite: bool, o: Outcome): nat {
    PER_WORD * len + (if isWrite then WR_BASE else RD_BASE) + Extra(o)
  }

  function Access(s: State, r: Req): (State, nat)
    requires s.ratio > 0
  {
    var dev := Dev(s, r.tick);
    var h := HostOf(r.id);
    var s1 := CheckRefresh(s, dev);
    var start := Max(dev, s1.ctrlFree[h]);
    var o := OutcomeIn(s1, r);
    var free := start + DocCycles(r.len, r.isWrite, o);
    var s2 := Count(s1, o);
    (s2.(ctrlFree := s1.ctrlFree[h := free],
         rows := s1.rows[(h, BankOf(r.addr)) := RowOf(r.addr)],
         stall := s1.stall + (start - dev)),
     Scale(free - dev, s.ratio))
  }

  /** Device cycles to CPU cycles. */
  function Scale(cycles: nat, ratio: nat): nat {
    cycles * ratio
  }

  function Count(s: State, o: Outcome): State {
    match o
    case Hit => s.(hits := s.hits + 1)
    case Miss => s.(misses := s.misses + 1)
    case Conflict => s.(conflicts := s.conflicts + 1)
  }

  /** The outcome an access gets: row state after the refreshes due by then. */
  function OutcomeAt(s: State, r: Req): Outcome
    requires s.ratio > 0
  {
    OutcomeIn(CheckRefresh(s, Dev(s, r.tick)), r)
  }

  /** The latency is the documented one exactly when the host's controller is free; otherwise the wait is added. */
  lemma LatencyExactIff(s: State, r: Req)
    requires s.ratio > 0
    ensures Access(s, r).1 == DocCycles(r.len, r.isWrite, OutcomeAt(s, r)) * s.ratio
       <==> s.ctrlFree[HostOf(r.id)] <= Dev(s, r.tick)
    ensures Access(s, r).1 ==
      (Max(0, s.ctrlFree[HostOf(r.id)] - Dev(s, r.tick)) + DocCycles(r.len, r.isWrite, OutcomeAt(s, r))) * s.ratio
    ensures Access(s, r).0.stall == s.stall <==> s.ctrlFree[HostOf(r.id)] <= Dev(s, r.tick)
  {
    var wait := Max(0, s.ctrlFree[HostOf(r.id)] - Dev(s, r.tick));
    var doc := DocCycles(r.len, r.isWrite, OutcomeAt(s, r));
    assert Access(s, r).1 == (wait + doc) * s.ratio;
    assert (wait + doc) * s.ratio == wait * s.ratio + doc * s.ratio;
    if wait > 0 { assert wait * s.ratio > 0; }
  }

  /** A completion lands in the device cycle in which the controller becomes free, at the phase of the request. */
  lemma CompletionPhase(s: State, r: Req)
    requires s.ratio > 0
    ensures var (s', lat) := Access(s, r);
      && Dev(s', r.tick + lat) == s'.ctrlFree[HostOf(r.id)]
      && (r.tick + lat) % s.ratio == r.tick % s.ratio
  {
    var (s', lat) := Access(s, r);
    var k := s'.ctrlFree[HostOf(r.id)] - Dev(s, r.tick);
    assert lat == k * s.ratio;
    DivShift(r.tick, k, s.ratio);
  }

  // ---------------------------------------------------------------- history

  /** The state after a sequence of accesses since the last reset. */
  function Replay(ratio: nat, rs: seq<Req>): (s: State)
    requires ratio > 0
    ensures s.ratio == ratio
  {
    if rs == [] then Init(ratio) else Access(Replay(ratio, rs[..|rs| - 1]), rs[|rs| - 1]).0
  }

  predicate InOrder(rs: seq<Req>) {
    forall i, j :: 0 <= i < j < |rs| ==> rs[i].tick <= rs[j].tick
  }

  predicate SameBank(a: Req, b: Req) {
    HostOf(a.id) == HostOf(b.id) && BankOf(a.addr) == BankOf(b.addr)
  }

  /** A refresh falls in (from, to]: some positive multiple of the period does. */
  ghost predicate RefreshIn(from: nat, to: nat) {
    exists k: nat :: from < REFRESH_PERIOD * k <= to
  }

  lemma RefreshInIff(from: nat, to: nat)
    requires from <= to
    ensures RefreshIn(from, to) <==> from / REFRESH_PERIOD < to / REFRESH_PERIOD
  {
    if RefreshIn(from, to) {
      var k: nat :| from < REFRESH_PERIOD * k <= to;
      assert from / REFRESH_PERIOD < k <= to / REFRESH_PERIOD;
    }
    if from / REFRESH_PERIOD < to / REFRESH_PERIOD {
      var k := to / REFRESH_PERIOD;
      assert from < REFRESH_PERIOD * k <= to;
    }
  }

  /** What the history says about r: the last access of this host to this bank decides, unless a refresh came between. */
  ghost function OutcomeByHistory(ratio: nat, rs: seq<Req>, r: Req): Outcome
    requires ratio > 0
  {
    if rs == [] then Miss
    else
      var p := rs[|rs| - 1];
      if !SameBank(p, r) then OutcomeByHistory(ratio, rs[..|rs| - 1], r)
      else if RefreshIn(p.tick / ratio, r.tick / ratio) then Miss
      else if RowOf(p.addr) == RowOf(r.addr) then Hit
      else Conflict
  }

  /** Counters and refresh schedule are functions of the last access time. */
  ghost predicate Scheduled(s: State, rs: seq<Req>)
    requires s.ratio > 0
  {
    var last := if rs == [] then 0 else rs[|rs| - 1].tick / s.ratio;
    && s.refreshes == last / REFRESH_PERIOD
    && s.nextRefresh == REFRESH_PERIOD * (s.refreshes + 1)
    && s.hits + s.misses + s.conflicts == |rs|
  }

  lemma {:induction false} ReplayScheduled(ratio: nat, rs: seq<Req>)
    requires ratio > 0 && InOrder(rs)
    ensures Scheduled(Replay(ratio, rs), rs)
  {
    if rs != [] {
      var n := |rs| - 1;
      ReplayScheduled(ratio, rs[..n]);
      if n > 0 { DivOrder(rs[n - 1].tick, rs[n].tick, ratio); }
      CatchUp(Replay(ratio, rs[..n]), rs[n].tick / ratio);
    }
  }

  /** After a catch-up the schedule is that of dev, and rows survive exactly if dev is in the same period. */
  lemma CatchUp(s: State, dev: nat)
    requires s.nextRefresh == REFRESH_PERIOD * (s.refreshes + 1)
    requires s.refreshes <= dev / REFRESH_PERIOD
    ensures var s' := CheckRefresh(s, dev);
      && s'.refreshes == dev / REFRESH_PERIOD
      && s'.nextRefresh == REFRESH_PERIOD * (s'.refreshes + 1)
      && s'.rows == if s.refreshes == dev / REFRESH_PERIOD then s.rows else map[]
  {
  }

  /** Row hit, miss and conflict depend on the history alone, as the documentation describes them. */
  lemma {:induction false} RowOutcome(ratio: nat, rs: seq<Req>, r: Req)
    requires ratio > 0 && InOrder(rs + [r])
    ensures OutcomeAt(Replay(ratio, rs), r) == OutcomeByHistory(ratio, rs, r)
  {
    var s := Replay(ratio, rs);
    assert InOrder(rs) by { assert forall i :: 0 <= i < |rs| ==> rs[i] == (rs + [r])[i]; }
    ReplayScheduled(ratio, rs);
    if rs != [] {
      var n := |rs| - 1;
      var p := rs[n];
      assert (rs + [r])[n] == p && (rs + [r])[n + 1] == r;
      DivOrder(p.tick, r.tick, ratio);
      RefreshInIff(p.tick / ratio, r.tick / ratio);
      CatchUp(s, r.tick / ratio);
      if !SameBank(p, r) {
        forall i, j | 0 <= i < j < |rs[..n] + [r]|
          ensures (rs[..n] + [r])[i].tick <= (rs[..n] + [r])[j].tick
        {
          assert (rs + [r])[i].tick <= (rs + [r])[if j == n then n + 1 else j].tick;
        }
        RowOutcome(ratio, rs[..n], r);
        SkipOther(ratio, rs, r);
      }
    }
  }

  /** An access to another bank or by another host does not change r's outcome. */
  lemma SkipOther(ratio: nat, rs: seq<Req>, r: Req)
    requires ratio > 0 && rs != [] && InOrder(rs) && !SameBank(rs[|rs| - 1], r) && rs[|rs| - 1].tick <= r.tick
    ensures OutcomeAt(Replay(ratio, rs), r) == OutcomeAt(Replay(ratio, rs[..|rs| - 1]), r)
  {
    var n := |rs| - 1;
    var p := rs[n];
    var s0 := Replay(ratio, rs[..n]);
    ReplayScheduled(ratio, rs[..n]);
    ReplayScheduled(ratio, rs);
    DivOrder(p.tick, r.tick, ratio);
    if n > 0 { DivOrder(rs[n - 1].tick, p.tick, ratio); }
    CatchUp(s0, p.tick / ratio);
    CatchUp(s0, r.tick / ratio);
    CatchUp(Replay(ratio, rs), r.tick / ratio);
  }

  // ---------------------------------------------------------------- the documented latency

  /** Device cycles spent on the row: nothing if the host's last access to the bank had the same row, 4 if it had another, 3 after a refresh or for a bank not used yet. */
  function RowCost(ratio: nat, before: seq<Req>, r: Req): nat
    requires ratio > 0
  {
    if before == [] then 3
    else
      var p := before[|before| - 1];
      if (if p.id < 2 then p.id else 2) != (if r.id < 2 then r.id else 2) || p.addr / 1024 % 4 != r.addr / 1024 % 4
      then RowCost(ratio, before[..|before| - 1], r)
      else if p.tick / ratio / 781 < r.tick / ratio / 781 then 3
      else if p.addr / 4096 % 8192 != r.addr / 4096 % 8192 then 4
      else 0
  }

  /** The documented latency: two device cycles a word, two for a read, and the cost of the row, in CPU ticks. */
  function DocLatency(ratio: nat, before: seq<Req>, r: Req): nat
    requires ratio > 0
  {
    ratio * (2 * r.len + (if r.isWrite then 0 else 2) + RowCost(ratio, before, r))
  }

  lemma {:induction false} RowCostIs(ratio: nat, rs: seq<Req>, r: Req)
    requires ratio > 0
    ensures RowCost(ratio, rs, r) == Extra(OutcomeByHistory(ratio, rs, r))
  {
    hide RefreshIn;
    if rs != [] {
      var p := rs[|rs| - 1];
      RowCostIs(ratio, rs[..|rs| - 1], r);
      RefreshBetween(p.tick / ratio, r.tick / ratio);
    }
  }

  lemma RefreshBetween(from: nat, to: nat)
    ensures RefreshIn(from, to) <==> from / 781 < to / 781
  {
    if from <= to { RefreshInIff(from, to); } else { assert to / 781 <= from / 781; }
  }

  lemma DocIsHistory(ratio: nat, rs: seq<Req>, r: Req)
    requires ratio > 0
    ensures DocLatency(ratio, rs, r) == DocCycles(r.len, r.isWrite, OutcomeByHistory(ratio, rs, r)) * ratio
  {
    RowCostIs(ratio, rs, r);
    Commutes(ratio, DocCycles(r.len, r.isWrite, OutcomeByHistory(ratio, rs, r)));
  }

  lemma Commutes(a: nat, b: nat)
    ensures a * b == b * a
  {
  }

  /** For every history in time order, an access takes the documented time exactly when its host's controller is free, and that much more than the wait otherwise. */
  lemma LatencyByHistory(ratio: nat, rs: seq<Req>, r: Req)
    requires ratio > 0 && InOrder(rs + [r])
    ensures var s := Replay(ratio, rs);
      var free := s.ctrlFree[if r.id < 2 then r.id else 2];
      && (Access(s, r).1 == DocLatency(ratio, rs, r) <==> free <= r.tick / ratio)
      && Access(s, r).1 == ratio * Max(0, free - r.tick / ratio) + DocLatency(ratio, rs, r)
  {
    var s := Replay(ratio, rs);
    RowOutcome(ratio, rs, r);
    DocIsHistory(ratio, rs, r);
    LatencyExactIff(s, r);
    var wait := Max(0, s.ctrlFree[HostOf(r.id)] - Dev(s, r.tick));
    hide Access, OutcomeAt, OutcomeByHistory, DocLatency, DocCycles, Replay;
    Distributes(wait, DocCycles(r.len, r.isWrite, OutcomeAt(s, r)), ratio);
  }

  lemma Distributes(a: nat, b: nat, ratio: nat)
    ensures (a + b) * ratio == ratio * a + b * ratio
  {
  }

  /** How many accesses of a history paid a given row cost. */
  function Paid(ratio: nat, rs: seq<Req>, cost: nat): nat
    requires ratio > 0
  {
    if rs == [] then 0
    else Paid(ratio, rs[..|rs| - 1], cost) + if RowCost(ratio, rs[..|rs| - 1], rs[|rs| - 1]) == cost then 1 else 0
  }

  /** The ticks that an access waits for its controller, in device cycles. */
  lemma StallGrows(s: State, r: Req)
    requires s.ratio > 0
    ensures Access(s, r).0.stall == s.stall + Max(0, s.ctrlFree[if r.id < 2 then r.id else 2] - r.tick / s.ratio)
  {
  }

  lemma CounterStep(s: State, r: Req)
    requires s.ratio > 0
    ensures var s' := Access(s, r).0;
      && s'.hits == s.hits + (if OutcomeAt(s, r).Hit? then 1 else 0)
      && s'.misses == s.misses + (if OutcomeAt(s, r).Miss? then 1 else 0)
      && s'.conflicts == s.conflicts + (if OutcomeAt(s, r).Conflict? then 1 else 0)
  {
  }

  /** The three counters are the numbers of accesses that paid nothing, 3 and 4 cycles for their row. */
  lemma {:induction false} CountersArePaid(ratio: nat, rs: seq<Req>)
    requires ratio > 0 && InOrder(rs)
    ensures var s := Replay(ratio, rs);
      s.hits == Paid(ratio, rs, 0) && s.misses == Paid(ratio, rs, 3) && s.conflicts == Paid(ratio, rs, 4)
  {
    hide Access, RowCost, OutcomeAt, OutcomeByHistory;
    if rs != [] {
      var n := |rs| - 1;
      assert rs[..n] + [rs[n]] == rs;
      CountersArePaid(ratio, rs[..n]);
      CounterStep(Replay(ratio, rs[..n]), rs[n]);
      RowOutcome(ratio, rs[..n], rs[n]);
      RowCostIs(ratio, rs[..n], rs[n]);
    }
  }
}

/** The timing half of the memory system: while each host has one request out, the SDRAM formula is exact. */
module MemoryTiming {
  import opened Common
  import opened Arith
  import opened Routing
  import opened Arbiter
  import opened MemorySystem
  import S = Sdram

  /** The SDRAM state is what the accesses since the reset made it, in time order, and every latency was the documented one. */
  ghost predicate MemOk(m: Mem, now: nat) {
    && m.sdram.ratio > 0
    && m.sdram == S.Replay(m.sdram.ratio, m.since)
    && S.InOrder(m.since)
    && (forall i :: 0 <= i < |m.since| ==> m.since[i].tick <= now)
    && m.sdram.stall == 0
    && (forall v | v in m.served :: v.lat == S.DocLatency(m.sdram.ratio, v.before, v.req))
  }

  /** Host h waits for nothing, or for nothing beyond the time its channel will take. */
  predicate Covered(c: Channel, h: nat, free: nat, ratio: nat)
    requires ratio > 0
  {
    c.serving == Some(h) && c.busy.Some? && free <= c.busy.value / ratio
  }

  predicate FreeBy(m: Mem, h: nat, now: nat)
    requires m.sdram.ratio > 0 && h < HOSTS
  {
    m.sdram.ctrlFree[h] <= now / m.sdram.ratio
  }

  ghost predicate FreeOk(m: Mem, rd: Channel, wr: Channel, now: nat)
    requires m.sdram.ratio > 0
  {
    forall h :: 0 <= h < HOSTS ==>
      FreeBy(m, h, now)
      || Covered(rd, h, m.sdram.ctrlFree[h], m.sdram.ratio)
      || Covered(wr, h, m.sdram.ctrlFree[h], m.sdram.ratio)
  }

  /** A host has at most one request out on the two channels together. */
  predicate OneOut(rd: Channel, wr: Channel) {
    |rd.slots| == |wr.slots| == HOSTS &&
    forall h :: 0 <= h < HOSTS ==> !(rd.slots[h].Some? && wr.slots[h].Some?)
  }

  predicate LensOk(c: Channel) {
    forall h :: 0 <= h < |c.slots| && c.slots[h].Some? ==> c.slots[h].value.len >= 1
  }

  /** SDRAM requests complete in the very tick they are due: the memory update has not come too late. */
  ghost predicate OnTime(c: Channel, now: nat, memDone: bool) {
    && (c.serving.Some? && c.busy.Some? && c.serving.value < |c.slots| && c.slots[c.serving.value].Some?
          && IsSdram(c.slots[c.serving.value].value)
        ==> c.busy.value >= now + (if memDone then 1 else 0))
    && (forall d | d in c.delivered :: IsSdram(d.req) ==> d.at == d.due)
  }

  // ---------------------------------------------------------------- one latency

  lemma ReplaySnoc(ratio: nat, rs: seq<S.Req>, r: S.Req)
    requires ratio > 0
    ensures S.Replay(ratio, rs + [r]) == S.Access(S.Replay(ratio, rs), r).0
  {
    assert (rs + [r])[..|rs + [r]| - 1] == rs;
  }

  lemma InOrderSnoc(rs: seq<S.Req>, r: S.Req)
    requires S.InOrder(rs) && forall i :: 0 <= i < |rs| ==> rs[i].tick <= r.tick
    ensures S.InOrder(rs + [r])
  {
  }

  /** What Access leaves for the controllers. */
  lemma AccessFree(s: S.State, q: S.Req)
    requires s.ratio > 0 && q.id < HOSTS && s.ctrlFree[q.id] <= q.tick / s.ratio
    ensures var (s', lat) := S.Access(s, q);
      && s'.ratio == s.ratio && s'.stall == s.stall
      && s'.ctrlFree[q.id] == (q.tick + lat) / s.ratio
      && (forall h :: 0 <= h < HOSTS && h != q.id ==> s'.ctrlFree[h] == s.ctrlFree[h])
      && lat == S.Scale(S.DocCycles(q.len, q.isWrite, S.OutcomeAt(s, q)), s.ratio)
  {
    S.LatencyExactIff(s, q);
    S.CompletionPhase(s, q);
    hide S.OutcomeIn, S.DocCycles;
  }

  lemma LatencyAtLeast(len: nat, isWrite: bool, o: S.Outcome, ratio: nat)
    requires len >= 1 && ratio > 0
    ensures S.Scale(S.DocCycles(len, isWrite, o), ratio) >= 2
  {
    AtLeast(S.DocCycles(len, isWrite, o), ratio);
    assert S.DocCycles(len, isWrite, o) * ratio == ratio * S.DocCycles(len, isWrite, o);
    AtLeast(ratio, S.DocCycles(len, isWrite, o));
  }

  /** The SDRAM half of lat_of: the access keeps the record, and its latency is the documented one. */
  lemma SdramExact(m: Mem, q: S.Req, now: nat, picked: bool)
    requires MemOk(m, now) && q.id < HOSTS && q.tick == now && FreeBy(m, q.id, now)
    ensures var (s', lat) := S.Access(m.sdram, q);
      MemOk(m.(sdram := s', since := m.since + [q], served := m.served + [Served(m.since, q, lat, picked)]), now)
  {
    AccessFree(m.sdram, q);
    ReplaySnoc(m.sdram.ratio, m.since, q);
    InOrderSnoc(m.since, q);
    S.RowOutcome(m.sdram.ratio, m.since, q);
    S.DocIsHistory(m.sdram.ratio, m.since, q);
    hide S.Access, S.InOrder, S.OutcomeByHistory, S.OutcomeAt, S.DocCycles, S.DocLatency, S.Replay;
  }

  lemma RatioOf(m: Mem, now: nat)
    requires MemOk(m, now)
    ensures m.sdram.ratio > 0
  {
  }

  /** For a host that is free, lat_of gives the documented latency and covers the controller until the completion. */
  lemma LatOfExact(m: Mem, r: Req, now: nat, picked: bool)
    requires MemOk(m, now) && r.host < HOSTS && FreeBy(m, r.host, now) && r.len >= 1
    ensures var (m', lat) := LatOf(m, r, now, picked);
      && MemOk(m', now) && m'.sdram.ratio == m.sdram.ratio
      && m'.sdram.ctrlFree[r.host] <= (now + lat) / m.sdram.ratio
      && (forall h :: 0 <= h < HOSTS && h != r.host ==> m'.sdram.ctrlFree[h] == m.sdram.ctrlFree[h])
      && (IsSdram(r) ==> lat >= 2)
  {
    hide MemOk;
    RatioOf(m, now);
    var (m', lat) := LatOf(m, r, now, picked);
    if IsSdram(r) {
      var q := ToSdram(r, now);
      SdramExact(m, q, now, picked);
      AccessFree(m.sdram, q);
      LatencyAtLeast(q.len, q.isWrite, S.OutcomeAt(m.sdram, q), m.sdram.ratio);
      hide S.Access, S.OutcomeAt, S.DocCycles, S.Scale, IsSdram;
    } else {
      DivOrder(now, now + lat, m.sdram.ratio);
    }
  }

  // ---------------------------------------------------------------- one channel step

  /** The timing invariant of a channel c beside the other channel o. */
  ghost predicate Timing(m: Mem, c: Channel, o: Channel, now: nat, memDone: bool) {
    && MemOk(m, now) && FreeOk(m, c, o, now)
    && OneOut(c, o) && LensOk(c) && LensOk(o)
    && OnTime(c, now, memDone) && OnTime(o, now, memDone)
  }

  lemma TimingSwap(m: Mem, c: Channel, o: Channel, now: nat, memDone: bool)
    requires Timing(m, c, o, now, memDone)
    ensures Timing(m, o, c, now, memDone)
  {
    hide MemOk, OnTime, LensOk;
  }

  /** Every host is free, or is being served on o until its controller is. */
  predicate OthersOk(m: Mem, o: Channel, now: nat)
    requires m.sdram.ratio > 0
  {
    forall h :: 0 <= h < HOSTS ==> FreeBy(m, h, now) || Covered(o, h, m.sdram.ctrlFree[h], m.sdram.ratio)
  }

  /** Scheduling the service of a free host, at once or one tick later. */
  lemma ServeFree(m: Mem, c: Channel, o: Channel, r: Req, now: nat, picked: bool)
    requires MemOk(m, now) && r.host < HOSTS && r.len >= 1 && o.serving != Some(r.host)
    requires OthersOk(m, o, now)
    requires c.serving == Some(r.host) && c.busy == Some(now + (if picked then 1 else 0) + LatOf(m, r, now, picked).1)
    ensures var (m', lat) := LatOf(m, r, now, picked);
      MemOk(m', now) && FreeOk(m', c, o, now) && m'.sdram.ratio == m.sdram.ratio && (IsSdram(r) ==> lat >= 2)
  {
    hide MemOk, LatOf, IsSdram;
    RatioOf(m, now);
    LatOfExact(m, r, now, picked);
    DivOrder(now + LatOf(m, r, now, picked).1, c.busy.value, m.sdram.ratio);
  }

  /** recv_req by a host that has nothing out. */
  lemma AcceptTiming(m: Mem, c: Channel, o: Channel, r: Req, now: nat, memDone: bool)
    requires Timing(m, c, o, now, memDone) && ChannelOk(c) && ChannelOk(o)
    requires r.host < HOSTS && c.slots[r.host].None? && o.slots[r.host].None? && r.len >= 1
    ensures m.sdram.ratio > 0
    ensures var (c', m') := Accept(c, m, r, now);
      Timing(m', c', o, now, memDone) && m'.sdram.ratio == m.sdram.ratio
  {
    assert m.sdram.ratio > 0;
    hide MemOk, SlotsOk, LatOf, IsSdram;
    if c.busy.None? { ServeFree(m, Accept(c, m, r, now).0, o, r, now, false); }
  }

  /** The host being served is free again once its completion is due. */
  lemma DoneIsFree(m: Mem, c: Channel, o: Channel, now: nat)
    requires m.sdram.ratio > 0 && FreeOk(m, c, o, now) && OneOut(c, o) && ChannelOk(c) && ChannelOk(o) && Due(c, now)
    ensures OthersOk(m, o, now)
  {
    hide SlotsOk;
    DivOrder(c.busy.value, now, m.sdram.ratio);
  }

  lemma TakeOnTime(c: Channel, now: nat)
    requires ChannelOk(c) && Due(c, now) && OnTime(c, now, false)
    ensures forall d | d in Take(c, now).0.delivered :: IsSdram(d.req) ==> d.at == d.due
  {
    hide IsSdram, SlotsOk;
  }

  /** Choosing the next host when all hosts but the one on the other channel are free. */
  lemma PickTiming(m: Mem, c: Channel, o: Channel, now: nat)
    requires MemOk(m, now) && OneOut(c, o) && LensOk(c) && CallbackOk(c) && ChannelOk(o) && OthersOk(m, o, now)
    ensures m.sdram.ratio > 0
    ensures var (c', m') := Pick(c, m, now);
      && MemOk(m', now) && FreeOk(m', c', o, now) && m'.sdram.ratio == m.sdram.ratio
      && (c'.busy.Some? ==>
            && c'.serving.Some? && c'.serving.value < |c'.slots| && c'.slots[c'.serving.value].Some?
            && (IsSdram(c'.slots[c'.serving.value].value) ==> c'.busy.value > now))
      && c'.delivered == c.delivered && c'.slots == c.slots && c'.serving.Some? == c'.busy.Some?
  {
    assert m.sdram.ratio > 0;
    hide MemOk, SlotsOk, LatOf, IsSdram;
    var h := Highest(c.slots);
    if h.Some? {
      var r := c.slots[h.value].value;
      SlotHost(c, h.value);
      ServeFree(m, Pick(c, m, now).0, o, r, now, true);
    }
  }

  /** A completion: the served host leaves on time, and the next one starts with a free controller. */
  lemma CompleteTiming(m: Mem, c: Channel, o: Channel, now: nat)
    requires Timing(m, c, o, now, false) && ChannelOk(c) && ChannelOk(o) && Due(c, now)
    ensures m.sdram.ratio > 0
    ensures var (c', m') := Pick(Take(c, now).0, m, now);
      && Timing(m', c', o, now, false) && m'.sdram.ratio == m.sdram.ratio && OnTime(c', now, true)
  {
    hide MemOk, SlotsOk, LatOf, IsSdram, Pick, FreeOk, OthersOk, CallbackOk, OneOut, LensOk, Take;
    RatioOf(m, now);
    DoneIsFree(m, c, o, now);
    TakeOk(c, now);
    TakeOnTime(c, now);
    TakeLens(c, o, now);
    PickTiming(m, Take(c, now).0, o, now);
    var (c', m') := Pick(Take(c, now).0, m, now);
    assert OneOut(c', o) && LensOk(c');
  }

  lemma TakeLens(c: Channel, o: Channel, now: nat)
    requires ChannelOk(c) && Due(c, now) && OneOut(c, o) && LensOk(c)
    ensures OneOut(Take(c, now).0, o) && LensOk(Take(c, now).0)
    ensures forall c': Channel :: c'.slots == Take(c, now).0.slots ==> OneOut(c', o) && LensOk(c')
  {
    hide SlotsOk;
  }
}

/**
 The memory arbiter: per host one read slot and one write slot, two channels that each serve one request,
 higher host ids first. A completion has two halves with the host's callback between them, so a host may
 send its next request from inside its own response.
 */
module Arbiter {
  import opened Common
  import opened Routing
  import S = Sdram

  datatype Req = Req(host: nat, isRead: bool, addr: nat, len: nat, uid: nat)

  /**
   An SDRAM access as it was timed: the accesses since the last reset, the access, its latency, and whether
   it was picked at a completion, so that its service starts in the next tick, or accepted by an idle channel.
   */
  datatype Served = Served(before: seq<S.Req>, req: S.Req, lat: nat, picked: bool) {
    function Start(): nat {
      req.tick + if picked then 1 else 0
    }
  }

  /** The devices behind the map, and the SDRAM accesses since the last reset. */
  datatype Mem = Mem(sdram: S.State, sramLat: nat, mmioLat: nat, since: seq<S.Req>, served: seq<Served>)

  /** `busy` and `serving` are None for the source's infinite tick and id -1. */
  datatype Channel = Channel(
    slots: seq<Option<Req>>,
    busy: Option<nat>,
    serving: Option<nat>,
    accepted: seq<Req>,
    charged: seq<Req>,
    delivered: seq<Delivery>)

  datatype Delivery = Delivery(req: Req, due: nat, at: nat)

  function InitChannel(n: nat): Channel {
    Channel(seq(n, _ => None), None, None, [], [], [])
  }

  function ToSdram(r: Req, now: nat): S.Req {
    S.Req(r.addr, r.len, !r.isRead, now, r.host)
  }

  predicate IsSdram(r: Req) {
    DeviceOf(r.addr) == SDRAM
  }

  /** lat_of: the latency of a request, taken when its service is scheduled. */
  function LatOf(m: Mem, r: Req, now: nat, picked: bool): (Mem, nat)
    requires m.sdram.ratio > 0
  {
    if IsSdram(r) then
      var q := ToSdram(r, now);
      var (s', lat) := S.Access(m.sdram, q);
      (m.(sdram := s', since := m.since + [q], served := m.served + [Served(m.since, q, lat, picked)]), lat)
    else (m, if DeviceOf(r.addr) == OTHER then m.mmioLat else m.sramLat)
  }

  /** recv_req on the channel of the request. */
  function Accept(c: Channel, m: Mem, r: Req, now: nat): (Channel, Mem)
    requires m.sdram.ratio > 0 && r.host < |c.slots|
  {
    var c1 := c.(slots := c.slots[r.host := Some(r)], accepted := c.accepted + [r]);
    if c.busy.Some? then (c1, m)
    else
      var (m', lat) := LatOf(m, r, now, false);
      (c1.(busy := Some(now + lat), serving := Some(r.host), charged := c.charged + [r]), m')
  }

  predicate Due(c: Channel, now: nat) {
    c.busy.Some? && c.busy.value <= now && c.serving.Some?
  }

  /** First half of a completion: the served request leaves its slot for its host. */
  function Take(c: Channel, now: nat): (Channel, Req)
    requires c.busy.Some? && c.serving.Some? && c.serving.value < |c.slots| && c.slots[c.serving.value].Some?
  {
    var r := c.slots[c.serving.value].value;
    (c.(slots := c.slots[c.serving.value := None], delivered := c.delivered + [Delivery(r, c.busy.value, now)]), r)
  }

  /** The highest host with a pending request. */
  function Highest(slots: seq<Option<Req>>): (h: Option<nat>)
    ensures h.Some? ==> h.value < |slots| && slots[h.value].Some?
    ensures forall i :: (if h.Some? then h.value + 1 else 0) <= i < |slots| ==> slots[i].None?
  {
    if slots == [] then None
    else if slots[|slots| - 1].Some? then Some(|slots| - 1)
    else Highest(slots[..|slots| - 1])
  }

  /** Second half of a completion: the next request, one tick later. */
  function Pick(c: Channel, m: Mem, now: nat): (Channel, Mem)
    requires m.sdram.ratio > 0
  {
    match Highest(c.slots)
    case None => (c.(busy := None, serving := None), m)
    case Some(h) =>
      var r := c.slots[h].value;
      var (m', lat) := LatOf(m, r, now, true);
      (c.(busy := Some(now + 1 + lat), serving := Some(h), charged := c.charged + [r]), m')
  }

  // ---------------------------------------------------------------- invariants

  function Pending(slots: seq<Option<Req>>): multiset<Req> {
    if slots == [] then multiset{}
    else Just(slots[0]) + Pending(slots[1..])
  }

  function Requests(d: seq<Delivery>): (r: seq<Req>)
    ensures |r| == |d| && forall i :: 0 <= i < |r| ==> r[i] == d[i].req
  {
    seq(|d|, i requires 0 <= i < |d| => d[i].req)
  }

  /** Slots belong to their hosts, and what was accepted is delivered or waits in a slot, once. */
  ghost predicate SlotsOk(c: Channel) {
    && (forall i :: 0 <= i < |c.slots| && c.slots[i].Some? ==> c.slots[i].value.host == i)
    && multiset(c.accepted) == multiset(Requests(c.delivered)) + Pending(c.slots)
    && forall i :: 0 <= i < |c.delivered| ==> c.delivered[i].at >= c.delivered[i].due
  }

  /** Between completions: busy exactly while a request is served, and nothing waits on an idle channel. */
  ghost predicate ChannelOk(c: Channel) {
    && SlotsOk(c)
    && (c.busy.Some? <==> c.serving.Some?)
    && (c.serving.Some? ==> c.serving.value < |c.slots| && c.slots[c.serving.value].Some?)
    && (c.busy.None? ==> forall i :: 0 <= i < |c.slots| ==> c.slots[i].None?)
    && multiset(c.charged) == multiset(Requests(c.delivered))
         + (if c.serving.Some? then multiset{c.slots[c.serving.value].value} else multiset{})
  }

  /** During the callback the channel still looks busy; everything charged has been delivered. */
  ghost predicate CallbackOk(c: Channel) {
    && SlotsOk(c)
    && c.busy.Some? && c.serving.Some? && c.serving.value < |c.slots|
    && multiset(c.charged) == multiset(Requests(c.delivered))
  }

  function Just(r: Option<Req>): multiset<Req> {
    if r.Some? then multiset{r.value} else multiset{}
  }

  lemma PendingAt(slots: seq<Option<Req>>, i: nat)
    requires i < |slots|
    ensures Pending(slots) == Pending(slots[i := None]) + Just(slots[i])
  {
    if i == 0 {
      assert slots[0 := None][1..] == slots[1..];
    } else {
      assert slots[i := None][1..] == slots[1..][i - 1 := None];
      PendingAt(slots[1..], i - 1);
    }
  }

  lemma PendingFill(slots: seq<Option<Req>>, i: nat, r: Req)
    requires i < |slots| && slots[i].None?
    ensures Pending(slots[i := Some(r)]) == Pending(slots) + multiset{r}
  {
    PendingAt(slots[i := Some(r)], i);
    hide Pending;
    assert slots[i := Some(r)][i := None] == slots;
  }

  lemma PendingClear(slots: seq<Option<Req>>, i: nat)
    requires i < |slots| && slots[i].Some?
    ensures Pending(slots) == Pending(slots[i := None]) + multiset{slots[i].value}
  {
    PendingAt(slots, i);
  }

  lemma PendingNone(slots: seq<Option<Req>>)
    requires forall i :: 0 <= i < |slots| ==> slots[i].None?
    ensures Pending(slots) == multiset{}
  {
  }

  lemma InitOk(n: nat)
    ensures ChannelOk(InitChannel(n))
  {
    PendingNone(InitChannel(n).slots);
  }

  lemma AcceptSlots(c: Channel, m: Mem, r: Req, now: nat)
    requires m.sdram.ratio > 0 && r.host < |c.slots| && c.slots[r.host].None? && SlotsOk(c)
    ensures SlotsOk(Accept(c, m, r, now).0)
  {
    hide LatOf, Pending, Requests;
    PendingFill(c.slots, r.host, r);
    var c' := Accept(c, m, r, now).0;
    assert multiset(c'.accepted) == multiset(c.accepted) + multiset{r};
    assert c'.slots == c.slots[r.host := Some(r)];
    var d := multiset(Requests(c.delivered));
    assert d + Pending(c.slots) + multiset{r} == d + (Pending(c.slots) + multiset{r});
  }

  /** recv_req is safe outside a completion and inside the callback, as long as the slot is free. */
  lemma AcceptOk(c: Channel, m: Mem, r: Req, now: nat)
    requires m.sdram.ratio > 0 && r.host < |c.slots| && c.slots[r.host].None?
    ensures ChannelOk(c) ==> ChannelOk(Accept(c, m, r, now).0)
    ensures CallbackOk(c) ==> CallbackOk(Accept(c, m, r, now).0)
    ensures Accept(c, m, r, now).0.accepted == c.accepted + [r]
  {
    hide LatOf, SlotsOk;
    if SlotsOk(c) { AcceptSlots(c, m, r, now); }
  }

  lemma TakeRequests(c: Channel, now: nat)
    requires ChannelOk(c) && Due(c, now)
    ensures Requests(Take(c, now).0.delivered) == Requests(c.delivered) + [Take(c, now).1]
    ensures multiset(Requests(Take(c, now).0.delivered)) == multiset(Requests(c.delivered)) + multiset{Take(c, now).1}
  {
    assert Requests(Take(c, now).0.delivered) == Requests(c.delivered) + [Take(c, now).1];
  }

  lemma TakeSlots(c: Channel, now: nat)
    requires ChannelOk(c) && Due(c, now)
    ensures SlotsOk(Take(c, now).0)
  {
    hide Pending, Requests;
    PendingClear(c.slots, c.serving.value);
    TakeRequests(c, now);
    var c' := Take(c, now).0;
    var d, r := multiset(Requests(c.delivered)), multiset{Take(c, now).1};
    assert d + (Pending(c'.slots) + r) == (d + r) + Pending(c'.slots);
  }

  lemma SlotHost(c: Channel, h: nat)
    requires SlotsOk(c) && h < |c.slots| && c.slots[h].Some?
    ensures c.slots[h].value.host == h
  {
  }

  lemma TakeOk(c: Channel, now: nat)
    requires ChannelOk(c) && Due(c, now)
    ensures CallbackOk(Take(c, now).0)
    ensures Take(c, now).1.host == c.serving.value && Take(c, now).0.slots[c.serving.value].None?
  {
    hide SlotsOk, Requests;
    TakeSlots(c, now);
    TakeRequests(c, now);
    SlotHost(c, c.serving.value);
  }

  lemma PickOk(c: Channel, m: Mem, now: nat)
    requires CallbackOk(c) && m.sdram.ratio > 0
    ensures ChannelOk(Pick(c, m, now).0)
  {
    hide DeviceOf, LatOf;
  }

  // ---------------------------------------------------------------- main results

  /** The callback: any number of new requests on this channel, each into a free slot. */
  datatype Call = Call(req: Req, at: nat)

  function Callbacks(c: Channel, m: Mem, calls: seq<Call>): Option<(Channel, Mem)>
    requires m.sdram.ratio > 0
    ensures var r := Callbacks(c, m, calls); r.Some? ==> r.value.1.sdram.ratio == m.sdram.ratio
  {
    if calls == [] then Some((c, m))
    else
      match Callbacks(c, m, calls[..|calls| - 1])
      case None => None
      case Some((c1, m1)) =>
        var k := calls[|calls| - 1];
        if k.req.host < |c1.slots| && c1.slots[k.req.host].None? then Some(Accept(c1, m1, k.req, k.at)) else None
  }

  /** A whole completion with whatever the host does in between. */
  lemma {:induction false} CompletionOk(c: Channel, m: Mem, calls: seq<Call>, now: nat)
    requires ChannelOk(c) && Due(c, now) && m.sdram.ratio > 0
    requires Callbacks(Take(c, now).0, m, calls).Some?
    ensures var (c1, m1) := Callbacks(Take(c, now).0, m, calls).value;
      CallbackOk(c1) && ChannelOk(Pick(c1, m1, now).0)
  {
    hide SlotsOk, CallbackOk, LatOf, Accept, Pick;
    TakeOk(c, now);
    CallbacksOk(Take(c, now).0, m, calls);
    var (c1, m1) := Callbacks(Take(c, now).0, m, calls).value;
    PickOk(c1, m1, now);
  }

  lemma {:induction false} CallbacksOk(c: Channel, m: Mem, calls: seq<Call>)
    requires CallbackOk(c) && m.sdram.ratio > 0 && Callbacks(c, m, calls).Some?
    ensures CallbackOk(Callbacks(c, m, calls).value.0)
  {
    hide CallbackOk, LatOf, Accept;
    if calls != [] {
      var n := |calls| - 1;
      CallbacksOk(c, m, calls[..n]);
      var (c1, m1) := Callbacks(c, m, calls[..n]).value;
      AcceptOk(c1, m1, calls[n].req, calls[n].at);
    }
  }

  /** Every delivered request was accepted and charged, and each accepted one at most once delivered. */
  lemma DeliveredOnce(c: Channel, r: Req)
    requires ChannelOk(c)
    ensures multiset(Requests(c.delivered))[r] <= multiset(c.charged)[r] <= multiset(c.accepted)[r]
    ensures c.busy.None? ==> multiset(Requests(c.delivered)) == multiset(c.charged) == multiset(c.accepted)
  {
    hide Requests, Pending;
    if c.serving.Some? {
      PendingClear(c.slots, c.serving.value);
    } else {
      PendingNone(c.slots);
    }
  }

  /** The next host is the highest that waits, so host 0 is next exactly when no other host waits. */
  lemma LowestHostNext(c: Channel, m: Mem, now: nat)
    requires m.sdram.ratio > 0 && c.slots != [] && c.slots[0].Some?
    ensures Pick(c, m, now).0.serving == Some(0) <==> forall i :: 1 <= i < |c.slots| ==> c.slots[i].None?
  {
    hide DeviceOf, LatOf;
  }

  /** The latency of a request by its address: the SRAM's for the CLINT and SRAM ranges, that of an SDRAM access for the memory ranges, the MMIO latency elsewhere. */
  lemma LatencyByAddress(m: Mem, r: Req, now: nat, picked: bool)
    requires m.sdram.ratio > 0
    ensures var (m', lat) := LatOf(m, r, now, picked);
      if 0x0200_0000 <= r.addr <= 0x0200_ffff || 0x0f00_0000 <= r.addr <= 0x0fff_ffff then m' == m && lat == m.sramLat
      else if 0x3000_0000 <= r.addr <= 0x3fff_ffff || 0x8000_0000 <= r.addr <= 0xbfff_ffff then
        (m'.sdram, lat) == S.Access(m.sdram, S.Req(r.addr, r.len, !r.isRead, now, r.host))
      else m' == m && lat == m.mmioLat
  {
    hide S.Access, DeviceOf;
    DeviceRanges(r.addr);
  }

  /** A request to an idle channel is served at once; one to a busy channel waits in its slot and changes nothing else. */
  lemma AcceptServes(c: Channel, m: Mem, r: Req, now: nat)
    requires m.sdram.ratio > 0 && r.host < |c.slots|
    ensures var (c', m') := Accept(c, m, r, now);
      && c'.slots == c.slots[r.host := Some(r)] && c'.delivered == c.delivered
      && (if c.busy.Some? then m' == m && c'.busy == c.busy && c'.serving == c.serving
          else c'.busy == Some(now + LatOf(m, r, now, false).1) && c'.serving == Some(r.host))
  {
    hide LatOf;
  }

  /** After a completion the request of the highest waiting host is served from the next tick on; with none the channel is idle. */
  lemma PickServes(c: Channel, m: Mem, now: nat, h: nat)
    requires m.sdram.ratio > 0 && h < |c.slots| && c.slots[h].Some? && forall i :: h < i < |c.slots| ==> c.slots[i].None?
    ensures var (c', m') := Pick(c, m, now);
      && c'.busy == Some(now + 1 + LatOf(m, c.slots[h].value, now, true).1)
      && c'.serving == Some(h) && c'.slots == c.slots && c'.delivered == c.delivered
  {
    hide LatOf;
  }

  /** A completion delivers the request in service and nothing else. */
  lemma TakeDelivers(c: Channel, now: nat, h: nat)
    requires c.busy.Some? && c.serving == Some(h) && h < |c.slots| && c.slots[h].Some?
    ensures var (c', r) := Take(c, now);
      && Some(r) == c.slots[h] && c'.slots == c.slots[h := None]
      && c'.delivered == c.delivered + [Delivery(r, c.busy.value, now)]
  {
  }
}

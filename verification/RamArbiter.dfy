/** The arbiter as the source has it: request slots and channel fields updated in place over a shared SDRAM model. */
module ArbiterClass {
  import opened Common
  import opened Routing
  import A = Arbiter
  import S = Sdram
  import opened SdramClass

  class RAMArbiter {
    const sdram: SdramModel
    const sramLat: nat
    const mmioLat: nat
    var rdReqs: seq<Option<A.Req>>
    var wrReqs: seq<Option<A.Req>>
    var rBusyUntil: Option<nat>
    var wBusyUntil: Option<nat>
    var rServing: Option<nat>
    var wServing: Option<nat>

    // The history of a run; the simulator does not keep it.
    ghost var since: seq<S.Req>
    ghost var served: seq<A.Served>
    ghost var rdLog: (seq<A.Req>, seq<A.Req>, seq<A.Delivery>)
    ghost var wrLog: (seq<A.Req>, seq<A.Req>, seq<A.Delivery>)

    ghost predicate Valid()
      reads this
    {
      sdram.Valid() && |rdReqs| == |wrReqs|
    }

    ghost function ReadChannel(): A.Channel
      reads this
    {
      A.Channel(rdReqs, rBusyUntil, rServing, rdLog.0, rdLog.1, rdLog.2)
    }

    ghost function WriteChannel(): A.Channel
      reads this
    {
      A.Channel(wrReqs, wBusyUntil, wServing, wrLog.0, wrLog.1, wrLog.2)
    }

    ghost function Memory(): A.Mem
      requires Valid()
      reads this, sdram, sdram.ctrlFreeAt, sdram.banks
    {
      A.Mem(sdram.State(), sramLat, mmioLat, since, served)
    }

    constructor (hosts: nat, model: SdramModel, sram: nat, mmio: nat)
      requires model.Valid()
      ensures Valid() && sdram == model
      ensures ReadChannel() == WriteChannel() == A.InitChannel(hosts)
      ensures Memory() == A.Mem(model.State(), sram, mmio, [], [])
    {
      sdram, sramLat, mmioLat := model, sram, mmio;
      rdReqs, wrReqs := seq(hosts, _ => None), seq(hosts, _ => None);
      rBusyUntil, wBusyUntil, rServing, wServing := None, None, None, None;
      since, served, rdLog, wrLog := [], [], ([], [], []), ([], [], []);
    }

    /** lat_of */
    method LatOf(r: A.Req, now: nat, ghost picked: bool) returns (lat: nat)
      requires Valid()
      modifies this`since, this`served, sdram, sdram.ctrlFreeAt, sdram.banks
      ensures Valid() && (Memory(), lat) == A.LatOf(old(Memory()), r, now, picked)
    {
      hide S.Access, DeviceIn;
      var did := FindDevice(MEM_MAP, OTHER, r.addr);
      assert did == DeviceOf(r.addr);
      if did == SDRAM {
        lat := sdram.Access(A.ToSdram(r, now));
        served := served + [A.Served(since, A.ToSdram(r, now), lat, picked)];
        since := since + [A.ToSdram(r, now)];
      } else {
        lat := if did == OTHER then mmioLat else sramLat;
      }
    }

    /** recv_req; the slot of the host must be free. */
    method RecvReq(r: A.Req, now: nat)
      requires Valid() && r.host < |rdReqs| && (if r.isRead then rdReqs[r.host].None? else wrReqs[r.host].None?)
      modifies this, sdram, sdram.ctrlFreeAt, sdram.banks
      ensures Valid()
      ensures r.isRead ==> (ReadChannel(), Memory()) == A.Accept(old(ReadChannel()), old(Memory()), r, now) && WriteChannel() == old(WriteChannel())
      ensures !r.isRead ==> (WriteChannel(), Memory()) == A.Accept(old(WriteChannel()), old(Memory()), r, now) && ReadChannel() == old(ReadChannel())
      ensures r.isRead && A.ChannelOk(old(ReadChannel())) ==> A.ChannelOk(ReadChannel())
      ensures !r.isRead && A.ChannelOk(old(WriteChannel())) ==> A.ChannelOk(WriteChannel())
      ensures r.isRead && A.CallbackOk(old(ReadChannel())) ==> A.CallbackOk(ReadChannel())
      ensures !r.isRead && A.CallbackOk(old(WriteChannel())) ==> A.CallbackOk(WriteChannel())
    {
      hide A.LatOf, A.ChannelOk, A.CallbackOk, DeviceOf;
      A.AcceptOk(if r.isRead then ReadChannel() else WriteChannel(), Memory(), r, now);
      if r.isRead {
        rdReqs := rdReqs[r.host := Some(r)];
        rdLog := (rdLog.0 + [r], rdLog.1, rdLog.2);
        if rBusyUntil.None? {
          var lat := LatOf(r, now, false);
          rdLog := (rdLog.0, rdLog.1 + [r], rdLog.2);
          rBusyUntil := Some(now + lat);
          rServing := Some(r.host);
        }
      } else {
        wrReqs := wrReqs[r.host := Some(r)];
        wrLog := (wrLog.0 + [r], wrLog.1, wrLog.2);
        if wBusyUntil.None? {
          var lat := LatOf(r, now, false);
          wrLog := (wrLog.0, wrLog.1 + [r], wrLog.2);
          wBusyUntil := Some(now + lat);
          wServing := Some(r.host);
        }
      }
    }

    /** update_impl for the read channel, up to the callback of the host: None if nothing is due. */
    method TakeRead(now: nat) returns (resp: Option<A.Req>)
      requires Valid() && A.ChannelOk(ReadChannel())
      modifies this`rdReqs, this`rdLog
      ensures Valid() && (resp.Some? <==> A.Due(old(ReadChannel()), now))
      ensures resp.Some? ==> (ReadChannel(), resp.value) == A.Take(old(ReadChannel()), now) && A.CallbackOk(ReadChannel())
      ensures resp.None? ==> ReadChannel() == old(ReadChannel())
    {
      if rBusyUntil.None? || rBusyUntil.value > now || rServing.None? { return None; }
      A.TakeOk(ReadChannel(), now);
      hide A.SlotsOk;
      resp := rdReqs[rServing.value];
      rdLog := (rdLog.0, rdLog.1, rdLog.2 + [A.Delivery(resp.value, rBusyUntil.value, now)]);
      rdReqs := rdReqs[rServing.value := None];
    }

    /** The loop over the hosts from the highest id down. */
    method Scan(reqs: seq<Option<A.Req>>) returns (h: Option<nat>)
      ensures h == A.Highest(reqs)
    {
      h := None;
      var i := |reqs|;
      assert reqs[..i] == reqs;
      while i > 0
        invariant 0 <= i <= |reqs| && A.Highest(reqs) == A.Highest(reqs[..i])
      {
        i := i - 1;
        assert reqs[..i + 1][..i] == reqs[..i];
        if reqs[i].Some? { return Some(i); }
      }
    }

    /** update_impl for the read channel, after the callback: the next request, from the highest host down. */
    method PickRead(now: nat)
      requires Valid() && A.CallbackOk(ReadChannel())
      modifies this, sdram, sdram.ctrlFreeAt, sdram.banks
      ensures Valid() && (ReadChannel(), Memory()) == A.Pick(old(ReadChannel()), old(Memory()), now)
      ensures WriteChannel() == old(WriteChannel()) && A.ChannelOk(ReadChannel())
    {
      hide A.LatOf, A.SlotsOk, A.Highest, DeviceOf, A.Requests;
      A.PickOk(ReadChannel(), Memory(), now);
      rBusyUntil, rServing := None, None;
      var h := Scan(rdReqs);
      if h.Some? {
        var r := rdReqs[h.value].value;
        rServing := h;
        var lat := LatOf(r, now, true);
        rdLog := (rdLog.0, rdLog.1 + [r], rdLog.2);
        rBusyUntil := Some(now + 1 + lat);
      }
    }

    method TakeWrite(now: nat) returns (resp: Option<A.Req>)
      requires Valid() && A.ChannelOk(WriteChannel())
      modifies this`wrReqs, this`wrLog
      ensures Valid() && (resp.Some? <==> A.Due(old(WriteChannel()), now))
      ensures resp.Some? ==> (WriteChannel(), resp.value) == A.Take(old(WriteChannel()), now) && A.CallbackOk(WriteChannel())
      ensures resp.None? ==> WriteChannel() == old(WriteChannel())
    {
      if wBusyUntil.None? || wBusyUntil.value > now || wServing.None? { return None; }
      A.TakeOk(WriteChannel(), now);
      hide A.SlotsOk;
      resp := wrReqs[wServing.value];
      wrLog := (wrLog.0, wrLog.1, wrLog.2 + [A.Delivery(resp.value, wBusyUntil.value, now)]);
      wrReqs := wrReqs[wServing.value := None];
    }

    method PickWrite(now: nat)
      requires Valid() && A.CallbackOk(WriteChannel())
      modifies this, sdram, sdram.ctrlFreeAt, sdram.banks
      ensures Valid() && (WriteChannel(), Memory()) == A.Pick(old(WriteChannel()), old(Memory()), now)
      ensures ReadChannel() == old(ReadChannel()) && A.ChannelOk(WriteChannel())
    {
      hide A.LatOf, A.SlotsOk, A.Highest, DeviceOf, A.Requests;
      A.PickOk(WriteChannel(), Memory(), now);
      wBusyUntil, wServing := None, None;
      var h := Scan(wrReqs);
      if h.Some? {
        var r := wrReqs[h.value].value;
        wServing := h;
        var lat := LatOf(r, now, true);
        wrLog := (wrLog.0, wrLog.1 + [r], wrLog.2);
        wBusyUntil := Some(now + 1 + lat);
      }
    }

    /** reset_stats of the devices behind the map */
    method ResetStats()
      requires Valid()
      modifies this`since, sdram, sdram.ctrlFreeAt, sdram.banks
      ensures Valid() && Memory() == old(Memory()).(sdram := S.ResetStats(old(sdram.State())), since := [])
    {
      sdram.ResetStats();
      since := [];
    }
  }
}

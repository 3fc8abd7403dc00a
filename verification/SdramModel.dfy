/** The SDRAM model as the source has it: arrays of controllers and banks, updated in place. */
module SdramClass {
  import opened Common
  import S = Sdram

  datatype Bank = Bank(open: bool, row: nat)

  class SdramModel {
    const ratio: nat
    const ctrlFreeAt: array<nat>
    const banks: array2<Bank>
    var nextRefreshTick: nat
    var rowHit: nat
    var rowMiss: nat
    var rowConf: nat
    var refreshCount: nat
    var ctrlStall: nat

    ghost predicate Valid() {
      && ratio > 0
      && ctrlFreeAt.Length == S.N_HOSTS
      && banks.Length0 == S.N_HOSTS && banks.Length1 == S.N_BANKS
    }

    ghost function Rows(): map<(nat, nat), nat>
      requires Valid()
      reads banks
    {
      map h: nat, b: nat | h < S.N_HOSTS && b < S.N_BANKS && banks[h, b].open :: (h, b) := banks[h, b].row
    }

    ghost function State(): S.State
      requires Valid()
      reads this, ctrlFreeAt, banks
    {
      S.State(ratio, ctrlFreeAt[..], nextRefreshTick, Rows(), rowHit, rowMiss, rowConf, refreshCount, ctrlStall)
    }

    constructor (cpuFreqMhz: nat)
      requires cpuFreqMhz >= S.DEV_MHZ
      ensures Valid() && State() == S.Init(cpuFreqMhz / S.DEV_MHZ)
      ensures fresh(ctrlFreeAt) && fresh(banks)
    {
      ratio := cpuFreqMhz / S.DEV_MHZ;
      ctrlFreeAt := new nat[S.N_HOSTS](_ => 0);
      banks := new Bank[S.N_HOSTS, S.N_BANKS]((_, _) => Bank(false, 0));
      nextRefreshTick := S.REFRESH_PERIOD;
      rowHit, rowMiss, rowConf, refreshCount, ctrlStall := 0, 0, 0, 0, 0;
    }

    method CloseAll()
      requires Valid()
      modifies banks
      ensures Rows() == map[]
    {
      var h := 0;
      while h < S.N_HOSTS
        invariant h <= S.N_HOSTS
        invariant forall i, j :: 0 <= i < h && 0 <= j < S.N_BANKS ==> !banks[i, j].open
      {
        var b := 0;
        while b < S.N_BANKS
          invariant b <= S.N_BANKS
          invariant forall i, j :: 0 <= i < h && 0 <= j < S.N_BANKS ==> !banks[i, j].open
          invariant forall j :: 0 <= j < b ==> !banks[h, j].open
        {
          banks[h, b] := banks[h, b].(open := false);
          b := b + 1;
        }
        h := h + 1;
      }
    }

    method CheckRefresh(dev: nat)
      requires Valid()
      modifies this`nextRefreshTick, this`refreshCount, banks
      ensures State() == S.CheckRefresh(old(State()), dev)
    {
      if dev < nextRefreshTick { return; }
      CloseAll();
      var elapsed := dev - nextRefreshTick;
      var n := elapsed / S.REFRESH_PERIOD + 1;
      nextRefreshTick := nextRefreshTick + n * S.REFRESH_PERIOD;
      refreshCount := refreshCount + n;
    }

    /** Opens one row; the others stay as they are. */
    method OpenRow(h: nat, b: nat, row: nat)
      requires Valid() && h < S.N_HOSTS && b < S.N_BANKS
      modifies banks
      ensures Rows() == old(Rows())[(h, b) := row]
    {
      banks[h, b] := Bank(true, row);
      assert forall i: nat, j: nat :: i < S.N_HOSTS && j < S.N_BANKS && (i != h || j != b) ==> banks[i, j] == old(banks[i, j]);
    }

    /** Row hit, miss or conflict of one access, counted; the result is its cost. */
    method RowExtra(r: S.Req) returns (extra: nat)
      requires Valid()
      modifies this`rowHit, this`rowMiss, this`rowConf
      ensures var o := S.OutcomeIn(old(State()), r); extra == S.Extra(o) && State() == S.Count(old(State()), o)
    {
      var host := S.HostOf(r.id);
      var b := S.BankOf(r.addr);
      var row := S.RowOf(r.addr);
      var bank := banks[host, b];
      assert (host, b) in Rows() <==> bank.open;
      extra := 0;
      if !bank.open {
        extra := S.ACT_COST;
        rowMiss := rowMiss + 1;
      } else if bank.row != row {
        extra := S.PRE_COST + S.ACT_COST;
        rowConf := rowConf + 1;
      } else {
        rowHit := rowHit + 1;
      }
    }

    method Access(r: S.Req) returns (lat: nat)
      requires Valid()
      modifies this, ctrlFreeAt, banks
      ensures (State(), lat) == S.Access(old(State()), r)
    {
      hide S.OutcomeIn, S.Count, S.Extra, S.CheckRefresh, Rows;
      var dev := r.tick / ratio;
      var host := S.HostOf(r.id);
      CheckRefresh(dev);
      ghost var s1 := State();
      var start := Max(dev, ctrlFreeAt[host]);
      var extra := RowExtra(r);
      ghost var s2 := State();
      if start > dev { ctrlStall := ctrlStall + (start - dev); }
      var base := if r.isWrite then S.WR_BASE else S.RD_BASE;
      var devCyc := S.PER_WORD * r.len + base + extra;
      ctrlFreeAt[host] := start + devCyc;
      OpenRow(host, S.BankOf(r.addr), S.RowOf(r.addr));
      var totalDev := ctrlFreeAt[host] - dev;
      lat := totalDev * ratio;
      assert ctrlFreeAt[..] == s1.ctrlFree[host := start + devCyc];
    }

    method ResetStats()
      requires Valid()
      modifies this, ctrlFreeAt, banks
      ensures State() == S.ResetStats(old(State()))
    {
      rowHit, rowMiss, rowConf, refreshCount := 0, 0, 0, 0;
      ctrlStall := 0;
      var h := 0;
      while h < S.N_HOSTS
        invariant h <= S.N_HOSTS && forall i :: 0 <= i < h ==> ctrlFreeAt[i] == 0
        modifies ctrlFreeAt
      {
        ctrlFreeAt[h] := 0;
        h := h + 1;
      }
      nextRefreshTick := S.REFRESH_PERIOD;
      CloseAll();
      assert ctrlFreeAt[..] == [0, 0, 0];
    }
  }
}

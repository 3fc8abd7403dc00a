/** Every handler of the pipeline keeps the invariant, and takes at most one step of the retirement machine. */
module CoreSteps {
  import opened Common
  import opened Isa
  import opened Core
  import opened CoreInv
  import H = History
  import R = Retire

  // ---------------------------------------------------------------- write-back and memory

  lemma WritebackInv(c: Core, now: nat)
    requires Inv(c)
    ensures Inv(DoWriteback(c, now))
    ensures CommitSource(c, now) == FromMem ==> R.Enabled(Abs(c), R.CommitBack) && Abs(DoWriteback(c, now)) == R.Do(Abs(c), R.CommitBack)
    ensures CommitSource(c, now) == FromMul || CommitSource(c, now) == FromDiv ==>
      R.Enabled(Abs(c), R.CommitExt) && Abs(DoWriteback(c, now)) == R.Do(Abs(c), R.CommitExt)
  {
    hide R.Inv, BranchesOk, RingFits, FrontOk, PathOk, OrphansOk, HistoryOk, Pos, Kinds, Cacheable;
    var c' := DoWriteback(c, now);
    assert Front(c') == Front(c);
    match CommitSource(c, now) {
      case FromMem =>
        assert Abs(c') == R.Do(Abs(c), R.CommitBack);
        R.StepInv(Abs(c), R.CommitBack);
      case FromDiv =>
        assert Abs(c') == R.Do(Abs(c), R.CommitExt);
        R.StepInv(Abs(c), R.CommitExt);
      case FromMul =>
        assert Abs(c') == R.Do(Abs(c), R.CommitExt);
        R.StepInv(Abs(c), R.CommitExt);
      case Nothing =>
    }
  }

  lemma MemorySlots(c: Core, portReady: bool)
    requires BackOk(c.execute, c.mem, c.mul, c.div, c.log.trace) && c.execute.Some? && c.mem.None?
    requires LsuOk(c.cfg, c.log.lsuOut, c.execute, c.mem)
    ensures var c' := DoMemory(c, portReady);
      && BackOk(c'.execute, c'.mem, c'.mul, c'.div, c'.log.trace)
      && LsuOk(c'.cfg, c'.log.lsuOut, c'.execute, c'.mem)
      && AtBoth(c'.mem, c'.execute) == AtBoth(c.mem, c.execute)
      && c' == c.(execute := c'.execute, mem := c'.mem, log := c.log.(lsuOut := c'.log.lsuOut))
  {
    hide Cacheable;
  }

  lemma MemoryInv(c: Core, portReady: bool)
    requires Inv(c) && c.execute.Some? && c.mem.None?
    ensures Inv(DoMemory(c, portReady)) && Abs(DoMemory(c, portReady)) == Abs(c)
  {
    hide R.Inv, BranchesOk, RingFits, FrontOk, Scoreboard, PathOk, OrphansOk, HistoryOk, BackOk, LsuOk, CountOk, Pos, Kinds, DoMemory;
    MemorySlots(c, portReady);
    var c' := DoMemory(c, portReady);
    assert Front(c') == Front(c);
    assert Abs(c') == Abs(c);
  }

  lemma LsuRespInv(c: Core)
    requires Inv(c) && c.log.lsuOut
    ensures LsuRespOk(c)
    ensures var c' := Step(c, LsuResp); Inv(c') && Abs(c') == Abs(c)
  {
    hide R.Inv, BranchesOk, RingFits, FrontOk, Scoreboard, PathOk, OrphansOk, HistoryOk, Pos, Kinds, Cacheable;
    var c' := Step(c, LsuResp);
    assert Front(c') == Front(c);
    assert Abs(c') == Abs(c);
  }

  // ---------------------------------------------------------------- leaving Decode

  /** Past a right-path head, the rest of the front keeps its shape. */
  lemma DropHead(c: Core)
    requires PathOk(Front(c), c.fs) && HistoryOk(c.hist, c.log.predLog, c.log.contrib, OffPath(c.fs), Front(c))
    requires Front(c) != [] && !Front(c)[0].brMispred
    ensures PathOk(Front(c)[1..], c.fs)
    ensures HistoryOk(c.hist, c.log.predLog, c.log.contrib, OffPath(c.fs), Front(c)[1..])
  {
    var f := Front(c);
    if OffPath(c.fs) {
      var b: nat :| MispredAt(f, b);
      assert b > 0;
      assert MispredAt(f[1..], b - 1);
    }
    forall i: nat | i < |f[1..]|
      ensures PredictedOk(c.hist.mode, c.log.predLog, f[1..], i)
    {
      assert PredictedOk(c.hist.mode, c.log.predLog, f, i + 1);
    }
  }

  /** The instruction in Decode is the oldest of the front. */
  lemma DecodeHead(c: Core)
    requires Inv(c) && c.decode.Some?
    ensures Front(c) != [] && Front(c)[0] == c.decode.value && Front(c)[1..] == Cons(c.fetch, c.ifq)
    ensures Abs(c).front != [] && Abs(c).front[0] == c.decode.value.pos && Abs(c).front[1..] == Pos(Front(c)[1..]) + At(c.input)
    ensures c.decode.value.pos < |c.log.trace| && c.decode.value.inst == c.log.trace[c.decode.value.pos]
    ensures WellFormed(c.decode.value.inst) && !c.decode.value.isWrongPath && !c.fs.wpFlushed
    ensures c.decode.value.brMispred ==> c.decode.value.inst.isBranch
    ensures forall t | t in Front(c)[1..] :: t in Front(c)
  {
    hide R.Inv, BranchesOk, RingFits, HistoryOk, OrphansOk, BackOk, LsuOk, CountOk;
  }

  /** c' is c after an M-extension instruction has moved from Decode to its unit. */
  predicate Dispatched(c: Core, c': Core) {
    && c.decode.Some? && !c.decode.value.inst.ext.ExtNone?
    && (c' == c.(mul := c.decode, decode := None, mulReady := c'.mulReady)
        || c' == c.(div := c.decode, decode := None, divReady := c'.divReady))
  }

  lemma DispatchAbs(c: Core, c': Core)
    requires Inv(c) && Dispatched(c, c')
    ensures Front(c') == Front(c)[1..]
    ensures R.Enabled(Abs(c), R.Dispatch) && Abs(c') == R.Do(Abs(c), R.Dispatch)
  {
    DecodeHead(c);
    hide R.Inv, BranchesOk, RingFits, PathOk, OrphansOk, HistoryOk, LsuOk, FrontOk, BackOk, Pos, CountOk, Kinds;
    assert Front(c') == Front(c)[1..];
    assert Abs(c').ext == [c.decode.value.pos];
  }

  lemma DispatchInv(c: Core, c': Core)
    requires Inv(c) && Dispatched(c, c')
    ensures R.Enabled(Abs(c), R.Dispatch) && Abs(c') == R.Do(Abs(c), R.Dispatch) && Inv(c')
  {
    hide R.Inv, BranchesOk, RingFits, PathOk, OrphansOk, HistoryOk, LsuOk, Abs, Front, R.Enabled, R.Do;
    DecodeHead(c);
    DropHead(c);
    DispatchAbs(c, c');
    SameCount(Abs(c), R.Dispatch);
    R.StepInv(Abs(c), R.Dispatch);
  }

  lemma MulInv(c: Core, now: nat)
    requires Inv(c) && c.decode.Some? && c.mul.None?
    ensures Inv(DoMulExt(c, now))
    ensures Abs(DoMulExt(c, now)) == Abs(c)
         || (R.Enabled(Abs(c), R.Dispatch) && Abs(DoMulExt(c, now)) == R.Do(Abs(c), R.Dispatch))
  {
    DecodeHead(c);
    hide Inv, Abs, Front;
    if IsMul(c.decode.value.inst) { DispatchInv(c, DoMulExt(c, now)); }
  }

  lemma DivInv(c: Core, now: nat)
    requires Inv(c) && c.decode.Some? && c.div.None?
    ensures Inv(DoDivExt(c, now))
    ensures Abs(DoDivExt(c, now)) == Abs(c)
         || (R.Enabled(Abs(c), R.Dispatch) && Abs(DoDivExt(c, now)) == R.Do(Abs(c), R.Dispatch))
  {
    DecodeHead(c);
    hide Inv, Abs, Front;
    if IsDiv(c.decode.value.inst) { DispatchInv(c, DoDivExt(c, now)); }
  }

  // ---------------------------------------------------------------- Execute and the flush

  /** c' is c after an ordinary instruction has moved from Decode to Execute. */
  predicate Moved(c: Core, c': Core) {
    && c.decode.Some? && c.decode.value.inst.ext.ExtNone? && c.execute.None?
    && c' == c.(execute := c.decode, decode := None)
  }

  /** Decode's scoreboard check rules out a hazard with the instruction in the unit. */
  lemma ScoreboardClears(s: R.State, trace: seq<Inst>, mul: Option<Trans>, div: Option<Trans>, t: Trans)
    requires s.trace == Kinds(trace) && s.ext == AtBoth(mul, div)
    requires GoodSlot(mul, trace) && GoodSlot(div, trace) && t.pos < |trace| && t.inst == trace[t.pos]
    requires !InUnit(mul, t.inst.dst) && !InUnit(div, t.inst.dst)
    ensures R.NoWaw(s, t.pos)
  {
  }

  lemma IssueEnabled(c: Core)
    requires Inv(c) && c.decode.Some? && c.decode.value.inst.ext.ExtNone?
    ensures R.Enabled(Abs(c), R.Issue)
  {
    hide R.Inv, BranchesOk, RingFits, PathOk, OrphansOk, HistoryOk, LsuOk, FrontOk, Pos, CountOk, R.NoWaw, Kinds, AtBoth, InUnit, Good;
    DecodeHead(c);
    ScoreboardClears(Abs(c), c.log.trace, c.mul, c.div, c.decode.value);
  }

  /** Leaving Decode does not change the number of instructions in flight. */
  lemma SameCount(s: R.State, a: R.Action)
    requires R.Enabled(s, a) && (a.Issue? || a.Dispatch?)
    ensures var s' := R.Do(s, a); |s'.front| + |s'.back| + |s'.ext| == |s.front| + |s.back| + |s.ext|
  {
  }

  lemma MovedAbs(c: Core, c': Core)
    requires Inv(c) && Moved(c, c')
    ensures Front(c') == Front(c)[1..]
    ensures R.Enabled(Abs(c), R.Issue) && Abs(c') == R.Do(Abs(c), R.Issue)
  {
    IssueEnabled(c);
    DecodeHead(c);
    hide R.Inv, BranchesOk, RingFits, FrontOk, BackOk, CountOk, PathOk, OrphansOk, HistoryOk, LsuOk, Scoreboard, Pos, Kinds, R.NoWaw;
    assert AtBoth(c'.mem, c'.execute) == AtBoth(c.mem, c.execute) + [c.decode.value.pos];
  }

  lemma MovedInv(c: Core, c': Core)
    requires Inv(c) && Moved(c, c') && !c.decode.value.brMispred
    ensures R.Enabled(Abs(c), R.Issue) && Abs(c') == R.Do(Abs(c), R.Issue) && Inv(c')
  {
    hide R.Inv, BranchesOk, RingFits, PathOk, OrphansOk, HistoryOk, Abs, Front, R.Enabled, R.Do, Good, WellFormed, Cacheable;
    DecodeHead(c);
    DropHead(c);
    MovedAbs(c, c');
    SameCount(Abs(c), R.Issue);
    R.StepInv(Abs(c), R.Issue);
  }

  /** A mispredicted branch in Decode has only placeholders behind it: none of them is counted or real. */
  lemma OnlyPlaceholdersBehind(c: Core)
    requires Inv(c) && c.decode.Some? && c.decode.value.brMispred
    ensures OffPath(c.fs)
    ensures forall t | t in Cons(c.fetch, c.ifq) :: t.isWrongPath && !t.counted
    ensures Pos(Cons(c.fetch, c.ifq)) == [] && CountCounted(c.ifq) == 0
    ensures c.fetch.Some? ==> !c.fetch.value.counted
  {
    hide R.Inv, BranchesOk, RingFits, OrphansOk, HistoryOk, LsuOk, BackOk, CountOk, Abs;
    var f := Front(c);
    assert f[0] == c.decode.value && f[0] in f;
    var b: nat :| MispredAt(f, b);
    assert b == 0;
    var r := Cons(c.fetch, c.ifq);
    forall t | t in r ensures t.isWrongPath && !t.counted {
      var i :| 0 <= i < |r| && r[i] == t;
      assert f[i + 1] == t && f[i + 1] in f;
    }
    PosAllWrong(r);
    NoneCounted(c.ifq);
    if c.fetch.Some? { assert r[0] == c.fetch.value && r[0] in r; }
  }

  lemma NoneCounted(s: seq<Trans>)
    requires forall t | t in s :: !t.counted
    ensures CountCounted(s) == 0
  {
    if s != [] {
      assert s[0] in s;
      NoneCounted(s[1..]);
    }
  }

  /** The repair at EX gives the register that the right path would have produced. */
  lemma RepairRestores(hist: H.Hist, predLog: seq<seq<bool>>, contrib: seq<bool>, front: seq<Trans>)
    requires HistoryOk(hist, predLog, contrib, true, front)
    requires front != [] && (hist.mode.Tage? ==> |front| < H.RING)
    requires front[0].brMispred && !front[0].isWrongPath && front[0].inst.isBranch
    ensures var h := H.Repair(hist, front[0].inst.brTaken, front[0].pred.snap);
      HistoryOk(h, predLog, contrib, false, []) && h.mode == hist.mode && |h.ghr| == |hist.ghr|
  {
    var t := front[0];
    assert PredictedOk(hist.mode, predLog, front, 0);
    var m := t.predNo.value;
    if !hist.mode.NoHistory? {
      var before := contrib[..|contrib| - 1];
      assert contrib == before + [Taken(t.inst)];
      H.LastBitsShift(before, Taken(t.inst), |hist.ghr|);
    }
    if hist.mode.Tage? {
      H.RepairExact(hist, predLog, m, t.inst.brTaken);
    }
  }

  /** The state right after the EX flush: the branch in Execute, nothing behind it, the register restored. */
  predicate Flushed(c: Core, c': Core, now: nat) {
    && c.decode.Some? && c.execute.None?
    && c' == Flush(c.(hist := H.Repair(c.hist, c.decode.value.inst.brTaken, c.decode.value.pred.snap)), now)
             .(execute := c.decode, decode := None)
  }

  lemma FlushedAbs(c: Core, c': Core, now: nat)
    requires Inv(c) && Flushed(c, c', now) && c.decode.value.inst.ext.ExtNone? && c.decode.value.brMispred
    ensures Front(c') == [] && c'.ongoing == c.ongoing
    ensures R.Enabled(Abs(c), R.Issue) && Abs(c') == R.Do(Abs(c), R.Issue)
  {
    IssueEnabled(c);
    DecodeHead(c);
    OnlyPlaceholdersBehind(c);
    hide R.Inv, BranchesOk, RingFits, FrontOk, BackOk, CountOk, PathOk, OrphansOk, HistoryOk, LsuOk, Scoreboard, Kinds, R.NoWaw, H.Repair;
    assert AtBoth(c'.mem, c'.execute) == AtBoth(c.mem, c.execute) + [c.decode.value.pos];
    assert Pos(Front(c')) == [];
  }

  lemma FrontFits(c: Core)
    requires Inv(c)
    ensures |Front(c)| <= c.cfg.cap + 2
    ensures c.hist.mode.Tage? ==> |Front(c)| < H.RING
  {
    hide R.Inv, BranchesOk, PathOk, OrphansOk, HistoryOk, LsuOk, BackOk, CountOk, Abs;
  }

  lemma FlushedOrphans(c: Core)
    requires OrphansOk(c.fs.respIsOrphan, c.log.outstanding, c.log.nextRid, c.ifq)
    ensures OrphansOk(AllTrue(c.fs.respIsOrphan), c.log.outstanding, c.log.nextRid, [])
  {
    WantedAllOrphans(AllTrue(c.fs.respIsOrphan), c.log.outstanding);
  }

  lemma FlushedInv(c: Core, c': Core, now: nat)
    requires Inv(c)
    requires Flushed(c, c', now) && c.decode.value.inst.ext.ExtNone? && c.decode.value.brMispred
    ensures R.Enabled(Abs(c), R.Issue) && Abs(c') == R.Do(Abs(c), R.Issue) && Inv(c')
  {
    hide R.Inv, BranchesOk, RingFits, PathOk, OrphansOk, HistoryOk, H.Repair, Abs, Front, R.Enabled, R.Do, Good, WellFormed, Cacheable, AllTrue, CountCounted;
    DecodeHead(c);
    FlushedAbs(c, c', now);
    FlushedOrphans(c);
    FlushedPath(c, c', now);
    SameCount(Abs(c), R.Issue);
    R.StepInv(Abs(c), R.Issue);
  }

  lemma FlushedPath(c: Core, c': Core, now: nat)
    requires Inv(c)
    requires Flushed(c, c', now) && c.decode.value.inst.ext.ExtNone? && c.decode.value.brMispred
    ensures PathOk([], c'.fs) && HistoryOk(c'.hist, c'.log.predLog, c'.log.contrib, OffPath(c'.fs), [])
    ensures c'.hist.mode == c.hist.mode && |c'.hist.ghr| == |c.hist.ghr|
  {
    hide R.Inv, BranchesOk, RingFits, OrphansOk, HistoryOk, H.Repair, Abs, Front, Good, WellFormed, BackOk, LsuOk, AllTrue, CountCounted, MispredAt;
    DecodeHead(c);
    OnlyPlaceholdersBehind(c);
    FrontFits(c);
    RepairRestores(c.hist, c.log.predLog, c.log.contrib, Front(c));
  }

  lemma ExecuteInv(c: Core, now: nat)
    requires Inv(c) && c.decode.Some? && c.execute.None?
    ensures Inv(DoExecute(c, now))
    ensures Abs(DoExecute(c, now)) == Abs(c)
         || (R.Enabled(Abs(c), R.Issue) && Abs(DoExecute(c, now)) == R.Do(Abs(c), R.Issue))
  {
    DecodeHead(c);
    hide Inv, Abs, Front;
    var t := c.decode.value;
    var c' := DoExecute(c, now);
    if t.inst.ext.ExtNone? {
      if t.brMispred {
        FlushedInv(c, c', now);
      } else {
        MovedInv(c, c');
      }
    }
  }

  // ---------------------------------------------------------------- Decode and Fetch

  lemma DecodeInv(c: Core, ready: bool)
    requires Inv(c) && c.fetch.Some? && c.decode.None?
    ensures Inv(DoDecode(c, ready)) && Abs(DoDecode(c, ready)) == Abs(c)
    ensures !c.fetch.value.isWrongPath
  {
    NoPlaceholderAtDecode(c);
    hide R.Inv, BranchesOk, RingFits, PathOk, OrphansOk, HistoryOk, LsuOk, BackOk, CountOk, Pos, Kinds;
    var c' := DoDecode(c, ready);
    assert Front(c') == Front(c);
    assert Abs(c') == Abs(c);
    assert c.fetch.value in Front(c) by { assert Front(c)[0] == c.fetch.value; }
  }

  /**
   With Decode free, the entry in Fetch is the oldest of the front, so it is real: the branch of do_decode
   that drops a placeholder is never taken, because the flush always comes first.
   */
  lemma NoPlaceholderAtDecode(c: Core)
    requires Inv(c) && c.fetch.Some? && c.decode.None?
    ensures !c.fetch.value.isWrongPath
  {
    hide R.Inv, BranchesOk, RingFits, OrphansOk, HistoryOk, LsuOk, BackOk, CountOk, FrontOk, Abs;
    var f := Front(c);
    assert f[0] == c.fetch.value && f[0] in f;
    if OffPath(c.fs) {
      var b: nat :| MispredAt(f, b);
      assert b == 0 || Right(f[0]);
    }
  }

  /** t' is t up to the fields that count down to its readiness. */
  predicate Alike(t: Trans, t': Trans) {
    t' == t.(waitMem := t'.waitMem, hold := t'.hold)
  }

  lemma TouchHistory(hist: H.Hist, predLog: seq<seq<bool>>, contrib: seq<bool>, off: bool, f: seq<Trans>, k: nat, t: Trans)
    requires k < |f| && Alike(f[k], t) && HistoryOk(hist, predLog, contrib, off, f)
    ensures HistoryOk(hist, predLog, contrib, off, f[k := t])
  {
    var g := f[k := t];
    forall i: nat | i < |g|
      ensures PredictedOk(hist.mode, predLog, g, i)
    {
      assert PredictedOk(hist.mode, predLog, f, i);
    }
    if off && !hist.mode.NoHistory? {
      forall b | 0 <= b < |g| && g[b].brMispred
        ensures BeforeMispred(g[b], predLog, contrib, |hist.ghr|)
      {
        assert f[b].brMispred && BeforeMispred(f[b], predLog, contrib, |hist.ghr|);
      }
    }
  }

  lemma TouchPath(fs: FetchState, fs': FetchState, f: seq<Trans>, k: nat, t: Trans)
    requires k < |f| && Alike(f[k], t) && PathOk(f, fs)
    requires fs' == fs.(respIsOrphan := fs'.respIsOrphan)
    ensures PathOk(f[k := t], fs') && OffPath(fs') == OffPath(fs)
  {
    if OffPath(fs) {
      var b: nat :| MispredAt(f, b);
      assert MispredAt(f[k := t], b);
    } else {
      forall u | u in f[k := t] ensures Right(u) {
        assert f[k] in f;
      }
    }
  }

  /** Where queue entry j sits in the front. */
  function Offset(c: Core): nat {
    (if c.decode.Some? then 1 else 0) + (if c.fetch.Some? then 1 else 0)
  }

  lemma FrontAt(c: Core, j: nat, t: Trans)
    requires j < |c.ifq|
    ensures Offset(c) + j < |Front(c)| && Front(c)[Offset(c) + j] == c.ifq[j]
    ensures Front(c.(ifq := c.ifq[j := t])) == Front(c)[Offset(c) + j := t]
  {
  }

  /** Updating the readiness of one queue entry keeps everything but the response order, which is up to the caller. */
  lemma TouchInv(c: Core, c': Core, j: nat, t: Trans)
    requires Inv(c) && j < |c.ifq| && Alike(c.ifq[j], t)
    requires c' == c.(ifq := c.ifq[j := t], fs := c'.fs, log := c'.log)
    requires c'.fs == c.fs.(respIsOrphan := c'.fs.respIsOrphan)
    requires c'.log == c.log.(outstanding := c'.log.outstanding)
    requires OrphansOk(c'.fs.respIsOrphan, c'.log.outstanding, c'.log.nextRid, c'.ifq)
    ensures Inv(c') && Abs(c') == Abs(c)
  {
    hide R.Inv, BranchesOk, RingFits, OrphansOk, HistoryOk, PathOk, LsuOk, BackOk, CountOk, Scoreboard, Pos, Kinds, WellFormed, AtBoth;
    var k := Offset(c) + j;
    FrontAt(c, j, t);
    assert Front(c') == Front(c)[k := t];
    PosUpdate(Front(c), k, t);
    TouchHistory(c.hist, c.log.predLog, c.log.contrib, OffPath(c.fs), Front(c), k, t);
    TouchPath(c.fs, c'.fs, Front(c), k, t);
    assert Abs(c') == Abs(c);
    assert Front(c)[k] in Front(c);
  }

  lemma Fetch1Inv(c: Core)
    requires Inv(c) && c.fetch.None?
    ensures Inv(DoFetch1(c)) && Abs(DoFetch1(c)) == Abs(c)
  {
    var c' := DoFetch1(c);
    if c.ifq != [] && !c.ifq[0].waitMem {
      if c.ifq[0].hold > 0 {
        hide Inv, Abs, PathOk, HistoryOk, FrontOk;
        assert c'.ifq[1..] == c.ifq[1..];
        assert OrphansOk(c.fs.respIsOrphan, c.log.outstanding, c.log.nextRid, c.ifq) by { RevealInv(c); }
        TouchInv(c, c', 0, c'.ifq[0]);
      } else {
        PopInv(c, c');
      }
    }
  }

  lemma RevealInv(c: Core)
    requires Inv(c)
    ensures OrphansOk(c.fs.respIsOrphan, c.log.outstanding, c.log.nextRid, c.ifq)
  {
  }

  lemma PopInv(c: Core, c': Core)
    requires Inv(c) && c.fetch.None? && c.ifq != [] && !c.ifq[0].waitMem
    requires c' == c.(fetch := Some(c.ifq[0]), ifq := c.ifq[1..])
    ensures Inv(c') && Abs(c') == Abs(c)
  {
    hide R.Inv, BranchesOk, RingFits, HistoryOk, PathOk, LsuOk, BackOk, CountOk, Scoreboard, Pos, Kinds, WellFormed, AtBoth, Wanted;
    assert [c.ifq[0]] + c.ifq[1..] == c.ifq;
    assert Front(c') == Front(c);
    assert Abs(c') == Abs(c);
  }

  /** The oldest response is either an orphan or belongs to the first waiting entry. */
  lemma ServeOrphans(orphan: seq<bool>, outstanding: seq<nat>, nextRid: nat, ifq: seq<Trans>)
    requires OrphansOk(orphan, outstanding, nextRid, ifq) && outstanding != []
    ensures orphan[0] ==> OrphansOk(orphan[1..], outstanding[1..], nextRid, ifq)
    ensures !orphan[0] ==>
      var k := FirstWaiting(ifq);
      k < |ifq| && ifq[k].rid == outstanding[0] && (forall i :: 0 <= i < k ==> !ifq[i].waitMem)
      && OrphansOk(orphan[1..], outstanding[1..], nextRid, ifq[k := ifq[k].(waitMem := false)])
  {
    ServeFirst(ifq);
  }

  /** The asserts of handle_ifu_resp hold, and a response that is not an orphan reaches the entry whose read it answers. */
  lemma IfuRespInv(c: Core)
    requires Inv(c) && c.log.outstanding != []
    ensures IfuRespOk(c)
    ensures !c.fs.respIsOrphan[0] ==> c.ifq[FirstWaiting(c.ifq)].rid == c.log.outstanding[0]
    ensures Inv(Step(c, IfuResp)) && Abs(Step(c, IfuResp)) == Abs(c)
  {
    RevealInv(c);
    ServeOrphans(c.fs.respIsOrphan, c.log.outstanding, c.log.nextRid, c.ifq);
    hide Inv, Abs, Front, OrphansOk, FirstWaiting;
    assert |c.fs.respIsOrphan| == |c.log.outstanding| by { OrphanCount(c); }
    var c' := Step(c, IfuResp);
    if c.fs.respIsOrphan[0] {
      OnlyOrphans(c, c');
    } else {
      var k := FirstWaiting(c.ifq);
      TouchInv(c, c', k, c.ifq[k].(waitMem := false));
    }
  }

  lemma OrphanCount(c: Core)
    requires Inv(c)
    ensures |c.fs.respIsOrphan| == |c.log.outstanding|
  {
  }

  /** A change to the response order alone. */
  lemma OnlyOrphans(c: Core, c': Core)
    requires Inv(c)
    requires c' == c.(fs := c'.fs, log := c'.log)
    requires c'.fs == c.fs.(respIsOrphan := c'.fs.respIsOrphan, earlyRedir := c'.fs.earlyRedir)
    requires c'.log == c.log.(outstanding := c'.log.outstanding, nextRid := c'.log.nextRid)
    requires OrphansOk(c'.fs.respIsOrphan, c'.log.outstanding, c'.log.nextRid, c'.ifq)
    ensures Inv(c') && Abs(c') == Abs(c)
  {
    hide R.Inv, BranchesOk, RingFits, OrphansOk, HistoryOk, LsuOk, BackOk, FrontOk, CountOk, Scoreboard, Pos, Kinds, AtBoth;
    assert Front(c') == Front(c);
  }
}

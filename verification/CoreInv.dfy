/** The state invariant of the pipeline, component by component. */
module CoreInv {
  import opened Common
  import opened Isa
  import opened Core
  import H = History
  import R = Retire

  // ---------------------------------------------------------------- views

  function Cons(o: Option<Trans>, s: seq<Trans>): seq<Trans> {
    if o.Some? then [o.value] + s else s
  }

  /** Fetched and not yet past Decode, oldest first. */
  function Front(c: Core): seq<Trans> {
    Cons(c.decode, Cons(c.fetch, c.ifq))
  }

  /** Trace positions of the real transactions in s. */
  function Pos(s: seq<Trans>): seq<nat> {
    if s == [] then [] else (if s[0].isWrongPath then [] else [s[0].pos]) + Pos(s[1..])
  }

  function At(o: Option<Trans>): seq<nat> {
    if o.Some? then [o.value.pos] else []
  }

  function AtBoth(a: Option<Trans>, b: Option<Trans>): seq<nat> {
    if a.None? then At(b) else if b.None? then At(a) else [a.value.pos, b.value.pos]
  }

  function Kinds(trace: seq<Inst>): (k: seq<R.Kind>)
    ensures |k| == |trace| && forall i :: 0 <= i < |k| ==> k[i] == R.Kind(trace[i].dst, !trace[i].ext.ExtNone?)
  {
    seq(|trace|, i requires 0 <= i < |trace| => R.Kind(trace[i].dst, !trace[i].ext.ExtNone?))
  }

  /** The retirement machine state that a pipeline state stands for. */
  function Abs(c: Core): R.State {
    R.State(Kinds(c.log.trace),
            Pos(Front(c)) + At(c.input),
            AtBoth(c.mem, c.execute),
            AtBoth(c.mul, c.div),
            c.log.commits)
  }

  // ---------------------------------------------------------------- invariant

  predicate Right(t: Trans) {
    !t.isWrongPath && !t.brMispred
  }

  predicate Good(t: Trans, trace: seq<Inst>) {
    && (t.isWrongPath ==> !t.counted && !t.brMispred)
    && (!t.isWrongPath ==> t.counted && t.pos < |trace| && t.inst == trace[t.pos])
    && (t.brMispred ==> t.inst.isBranch)
    && WellFormed(t.inst)
  }

  predicate GoodSlot(o: Option<Trans>, trace: seq<Inst>) {
    o.Some? ==> Good(o.value, trace) && !o.value.isWrongPath
  }

  predicate InUnit(o: Option<Trans>, dst: nat) {
    dst != 0 && WritesDst(o, dst)
  }

  /** Fetched transactions are well formed; those past the queue wait for nothing. */
  ghost predicate FrontOk(cfg: Config, trace: seq<Inst>, input: Option<Trans>, ifq: seq<Trans>, fetch: Option<Trans>,
                          decode: Option<Trans>, front: seq<Trans>) {
    && (forall t | t in front :: Good(t, trace))
    && GoodSlot(input, trace) && GoodSlot(decode, trace)
    && (input.Some? ==> !input.value.brMispred && !input.value.waitMem)
    && (fetch.Some? ==> !fetch.value.waitMem)
    && (decode.Some? ==> !decode.value.waitMem)
    && |ifq| <= cfg.cap
  }

  predicate BackOk(execute: Option<Trans>, mem: Option<Trans>, mul: Option<Trans>, div: Option<Trans>, trace: seq<Inst>) {
    && GoodSlot(execute, trace) && GoodSlot(mem, trace) && GoodSlot(mul, trace) && GoodSlot(div, trace)
    && (execute.Some? ==> execute.value.inst.ext.ExtNone?)
    && (mem.Some? ==> mem.value.inst.ext.ExtNone?)
    && !(mul.Some? && div.Some?)
  }

  /** At most one M-extension instruction in Decode and the units, and no younger writer of its register in Decode. */
  predicate Scoreboard(mul: Option<Trans>, div: Option<Trans>, decode: Option<Trans>) {
    decode.Some? ==>
      && (mul.Some? || div.Some? ==> decode.value.inst.ext.ExtNone?)
      && !InUnit(mul, decode.value.inst.dst) && !InUnit(div, decode.value.inst.dst)
  }

  /** ongoing_insts_ counts the instructions in flight. */
  predicate CountOk(ongoing: int, a: R.State) {
    ongoing == |a.front| + |a.back| + |a.ext|
  }

  /** A memory response is owed exactly when the instruction in Execute waits for one, and Memory is then free. */
  predicate LsuOk(cfg: Config, lsuOut: bool, execute: Option<Trans>, mem: Option<Trans>) {
    && (lsuOut <==> execute.Some? && execute.value.waitMem && !Legacy(cfg, execute.value.inst))
    && (execute.Some? && execute.value.waitMem ==> mem.None? && !execute.value.inst.memOp.MemNone?)
  }

  /** Entry b is the unresolved misprediction: all before it is on the right path, all after it is not. */
  ghost predicate MispredAt(s: seq<Trans>, b: nat) {
    && b < |s|
    && (forall i :: 0 <= i < b ==> Right(s[i]))
    && !s[b].isWrongPath && s[b].brMispred
    && (forall i :: b < i < |s| ==> s[i].isWrongPath)
  }

  predicate OffPath(fs: FetchState) {
    fs.wrongPath && !fs.wpFlushed
  }

  ghost predicate PathOk(front: seq<Trans>, fs: FetchState) {
    && (fs.wpFlushed ==> fs.wrongPath && front == [])
    && (OffPath(fs) ==> exists b :: MispredAt(front, b))
    && (!OffPath(fs) ==> forall t | t in front :: Right(t))
  }

  /** Read numbers of the responses that some queue entry is waiting for, in response order. */
  function Wanted(orphan: seq<bool>, outstanding: seq<nat>): seq<nat>
    requires |orphan| == |outstanding|
  {
    if orphan == [] then []
    else (if orphan[0] then [] else [outstanding[0]]) + Wanted(orphan[1..], outstanding[1..])
  }

  /** Read numbers of the waiting queue entries, in queue order. */
  function Waiting(q: seq<Trans>): seq<nat> {
    if q == [] then [] else (if q[0].waitMem then [q[0].rid] else []) + Waiting(q[1..])
  }

  ghost predicate OrphansOk(orphan: seq<bool>, outstanding: seq<nat>, nextRid: nat, ifq: seq<Trans>) {
    && |orphan| == |outstanding|
    && Wanted(orphan, outstanding) == Waiting(ifq)
    && (forall i, j :: 0 <= i < j < |ifq| && ifq[i].waitMem ==> ifq[j].waitMem)
    && (forall i :: 0 <= i < |outstanding| ==> outstanding[i] < nextRid)
    && (forall i, j :: 0 <= i < j < |outstanding| ==> outstanding[i] < outstanding[j])
  }

  /** The snapshot carried by a prediction names the register that this prediction saw. */
  predicate SnapIs(mode: H.Mode, snap: H.Snap, predLog: seq<seq<bool>>, m: nat) {
    m < |predLog| &&
    match mode
    case NoHistory => snap == H.NoSnap
    case Gshare => snap == H.Bits(predLog[m])
    case Tage => snap == H.Slot(m % H.WRAP)
  }

  /** Entry i of the front: its lookup is recent, and its snapshot is its own. */
  predicate PredictedOk(mode: H.Mode, predLog: seq<seq<bool>>, front: seq<Trans>, i: nat)
    requires i < |front|
  {
    var t := front[i];
    && (!t.isWrongPath && t.inst.isBranch ==>
          t.predNo.Some? && SnapIs(mode, t.pred.snap, predLog, t.predNo.value))
    && (t.predNo.Some? ==> t.predNo.value < |predLog| && |predLog| - t.predNo.value <= |front| - i)
  }

  /** The register before an unresolved misprediction, once its actual direction is in `contrib`. */
  ghost predicate BeforeMispred(t: Trans, predLog: seq<seq<bool>>, contrib: seq<bool>, len: nat) {
    && t.predNo.Some? && t.predNo.value < |predLog|
    && contrib != []
    && contrib[|contrib| - 1] == Taken(t.inst)
    && predLog[t.predNo.value] == H.LastBits(contrib[..|contrib| - 1], len)
  }

  /** Off the wrong path the register holds the right-path contributions; on it, they can be restored. */
  ghost predicate HistoryOk(hist: H.Hist, predLog: seq<seq<bool>>, contrib: seq<bool>, offPath: bool, front: seq<Trans>) {
    && (hist.mode.Tage? ==> H.RingOk(hist, predLog))
    && (forall i :: 0 <= i < |front| ==> PredictedOk(hist.mode, predLog, front, i))
    && (!hist.mode.NoHistory? ==>
          if offPath then
            forall b :: 0 <= b < |front| && front[b].brMispred ==> BeforeMispred(front[b], predLog, contrib, |hist.ghr|)
          else hist.ghr == H.LastBits(contrib, |hist.ghr|))
  }

  /** The queue is short enough for the snapshot ring: 8 against 512 in the simulator. */
  predicate RingFits(cfg: Config, mode: H.Mode) {
    mode.Tage? ==> cfg.cap + 2 < H.RING
  }

  /** Directions of the branches that hit the BTB or were taken. */
  function Outcomes(branches: seq<Seen>): seq<bool> {
    if branches == [] then []
    else
      var b := branches[|branches| - 1];
      Outcomes(branches[..|branches| - 1]) + if b.hit || b.taken then [b.taken] else []
  }

  /** Every right-path lookup saw the contributions of the right-path branches before it, and nothing else. */
  ghost predicate BranchesOk(predLog: seq<seq<bool>>, contrib: seq<bool>, branches: seq<Seen>, mode: H.Mode, len: nat) {
    && (forall b | b in branches ::
          b.predNo < |predLog| && b.before <= |contrib|
          && (!mode.NoHistory? ==> predLog[b.predNo] == H.LastBits(contrib[..b.before], len)))
    && (mode.Tage? && (forall b | b in branches :: !b.viaRas) ==> contrib == Outcomes(branches))
  }

  ghost predicate Inv(c: Core) {
    && R.Inv(Abs(c)) && CountOk(c.ongoing, Abs(c))
    && FrontOk(c.cfg, c.log.trace, c.input, c.ifq, c.fetch, c.decode, Front(c)) && BackOk(c.execute, c.mem, c.mul, c.div, c.log.trace)
    && Scoreboard(c.mul, c.div, c.decode)
    && LsuOk(c.cfg, c.log.lsuOut, c.execute, c.mem)
    && PathOk(Front(c), c.fs)
    && OrphansOk(c.fs.respIsOrphan, c.log.outstanding, c.log.nextRid, c.ifq)
    && HistoryOk(c.hist, c.log.predLog, c.log.contrib, OffPath(c.fs), Front(c))
    && BranchesOk(c.log.predLog, c.log.contrib, c.log.branches, c.hist.mode, |c.hist.ghr|)
    && RingFits(c.cfg, c.hist.mode)
  }

  lemma InitInv(cfg: Config, mode: H.Mode, len: nat)
    requires RingFits(cfg, mode)
    ensures Inv(Init(cfg, mode, len))
  {
    var c := Init(cfg, mode, len);
    assert Front(c) == [];
    assert R.Inv(Abs(c)) by {
      assert Abs(c) == R.INIT;
      assert R.Conserved(R.INIT) by { assert Range(0, 0) == []; }
    }
    assert H.LastBits([], len) == H.Zeros(len);
  }

  // ---------------------------------------------------------------- facts about the views

  lemma PosConcat(a: seq<Trans>, b: seq<Trans>)
    ensures Pos(a + b) == Pos(a) + Pos(b)
  {
    if a == [] {
      assert a + b == b;
    } else {
      assert (a + b)[1..] == a[1..] + b;
    }
  }

  lemma PosAllWrong(s: seq<Trans>)
    requires forall t | t in s :: t.isWrongPath
    ensures Pos(s) == []
  {
  }

  /** Changing everything but the identity of one entry leaves the positions alone. */
  lemma PosUpdate(s: seq<Trans>, k: nat, t: Trans)
    requires k < |s| && t.pos == s[k].pos && t.isWrongPath == s[k].isWrongPath
    ensures Pos(s[k := t]) == Pos(s)
  {
    if k > 0 {
      assert s[k := t][1..] == s[1..][k - 1 := t];
      PosUpdate(s[1..], k - 1, t);
    } else {
      assert s[k := t][1..] == s[1..];
    }
  }

  lemma WaitingConcat(a: seq<Trans>, b: seq<Trans>)
    ensures Waiting(a + b) == Waiting(a) + Waiting(b)
  {
    if a == [] {
      assert a + b == b;
    } else {
      assert (a + b)[1..] == a[1..] + b;
    }
  }

  lemma WantedAppend(orphan: seq<bool>, outstanding: seq<nat>, o: bool, rid: nat)
    requires |orphan| == |outstanding|
    ensures Wanted(orphan + [o], outstanding + [rid]) == Wanted(orphan, outstanding) + if o then [] else [rid]
  {
    if orphan == [] {
    } else {
      assert (orphan + [o])[1..] == orphan[1..] + [o];
      assert (outstanding + [rid])[1..] == outstanding[1..] + [rid];
    }
  }

  lemma WantedAllOrphans(orphan: seq<bool>, outstanding: seq<nat>)
    requires |orphan| == |outstanding| && forall i :: 0 <= i < |orphan| ==> orphan[i]
    ensures Wanted(orphan, outstanding) == []
  {
  }

  /** The first waiting entry owns the first wanted response; serving it removes exactly that one. */
  lemma ServeFirst(q: seq<Trans>)
    ensures FirstWaiting(q) < |q| <==> Waiting(q) != []
    ensures FirstWaiting(q) < |q| ==>
      var k := FirstWaiting(q);
      Waiting(q)[0] == q[k].rid && Waiting(q[k := q[k].(waitMem := false)]) == Waiting(q)[1..]
  {
    if q == [] {
    } else if q[0].waitMem {
      assert q[0 := q[0].(waitMem := false)][1..] == q[1..];
    } else {
      ServeFirst(q[1..]);
      var k := FirstWaiting(q);
      if k < |q| {
        assert q[k := q[k].(waitMem := false)][1..] == q[1..][k - 1 := q[k].(waitMem := false)];
      }
    }
  }
}

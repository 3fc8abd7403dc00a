/** The fetch of one instruction per tick keeps the invariant, on the right path and off it. */
module CoreFetch {
  import opened Common
  import opened Isa
  import opened Core
  import opened CoreInv
  import opened CoreSteps
  import H = History
  import R = Retire

  /** A lookup logs the register it saw, and its snapshot names that entry. */
  lemma LookupHistory(hist: H.Hist, predLog: seq<seq<bool>>, q: Query)
    requires hist.mode.Tage? ==> H.RingOk(hist, predLog)
    ensures var (h, pred) := Lookup(hist, q);
      && h.mode == hist.mode && |h.ghr| == |hist.ghr|
      && (h.mode.Tage? ==> H.RingOk(h, predLog + [hist.ghr]))
      && SnapIs(h.mode, pred.snap, predLog + [hist.ghr], |predLog|)
  {
    if hist.mode.Tage? { H.PredictRing(hist, predLog, q.dir, q.btb != 0); }
  }

  /** Entries already in the front keep their window when one more entry and at most one more lookup arrive. */
  lemma AppendPredicted(mode: H.Mode, predLog: seq<seq<bool>>, predLog': seq<seq<bool>>, f: seq<Trans>, t: Trans)
    requires forall i :: 0 <= i < |f| ==> PredictedOk(mode, predLog, f, i)
    requires predLog <= predLog' && |predLog'| <= |predLog| + 1
    ensures forall i :: 0 <= i < |f| ==> PredictedOk(mode, predLog', f + [t], i)
  {
    forall i | 0 <= i < |f|
      ensures PredictedOk(mode, predLog', f + [t], i)
    {
      assert PredictedOk(mode, predLog, f, i);
    }
  }

  /** Off the right path a lookup moves the register but nothing that the repair needs. */
  lemma WrongPathHistory(hist: H.Hist, predLog: seq<seq<bool>>, contrib: seq<bool>, f: seq<Trans>, t: Trans, q: Query)
    requires HistoryOk(hist, predLog, contrib, true, f)
    requires t.isWrongPath && !t.brMispred && t.predNo == Some(|predLog|)
    ensures HistoryOk(Lookup(hist, q).0, predLog + [hist.ghr], contrib, true, f + [t])
  {
    LookupHistory(hist, predLog, q);
    var h := Lookup(hist, q).0;
    var log := predLog + [hist.ghr];
    AppendPredicted(hist.mode, predLog, log, f, t);
    if !hist.mode.NoHistory? {
      forall b | 0 <= b < |f + [t]| && (f + [t])[b].brMispred
        ensures BeforeMispred((f + [t])[b], log, contrib, |h.ghr|)
      {
        assert BeforeMispred(f[b], predLog, contrib, |hist.ghr|);
      }
    }
  }

  /** A right-path branch shifts in its contribution, or leaves what the repair will need. */
  lemma BranchHistory(hist: H.Hist, predLog: seq<seq<bool>>, contrib: seq<bool>, f: seq<Trans>, t: Trans, q: Query)
    requires HistoryOk(hist, predLog, contrib, false, f)
    requires forall u | u in f :: Right(u)
    requires t.predNo == Some(|predLog|) && t.pred == Lookup(hist, q).1
    requires t.brMispred == !Judge(Taken(t.inst), Target(t.inst), t.pred)
    ensures HistoryOk(Lookup(hist, q).0, predLog + [hist.ghr],
                      contrib + Contribution(hist.mode, t.inst, !t.brMispred, q), t.brMispred, f + [t])
  {
    LookupHistory(hist, predLog, q);
    var h := Lookup(hist, q).0;
    var log := predLog + [hist.ghr];
    AppendPredicted(hist.mode, predLog, log, f, t);
    var bits := Contribution(hist.mode, t.inst, !t.brMispred, q);
    if t.brMispred && !hist.mode.NoHistory? {
      assert (contrib + bits)[..|contrib + bits| - 1] == contrib;
      assert forall i :: 0 <= i < |f| ==> f[i] in f;
    } else if !hist.mode.NoHistory? {
      H.LastBitsShift(contrib, q.dir, |hist.ghr|);
      assert contrib + [] == contrib;
    }
  }

  /** An instruction that makes no lookup leaves the history alone. */
  lemma NoLookupHistory(hist: H.Hist, predLog: seq<seq<bool>>, contrib: seq<bool>, f: seq<Trans>, t: Trans)
    requires HistoryOk(hist, predLog, contrib, false, f)
    requires t.predNo.None? && !t.inst.isBranch
    ensures HistoryOk(hist, predLog, contrib + [], false, f + [t])
  {
    AppendPredicted(hist.mode, predLog, predLog, f, t);
    assert contrib + [] == contrib;
  }

  /** A read for the newest queue entry, which then waits behind all others. */
  lemma AppendOrphans(orphan: seq<bool>, outstanding: seq<nat>, rid: nat, ifq: seq<Trans>, t: Trans)
    requires OrphansOk(orphan, outstanding, rid, ifq) && t.waitMem && t.rid == rid
    ensures OrphansOk(orphan + [false], outstanding + [rid], rid + 1, ifq + [t])
  {
    WantedAppend(orphan, outstanding, false, rid);
    WaitingConcat(ifq, [t]);
  }

  lemma FrontAppend(c: Core, t: Trans)
    ensures Front(c.(ifq := c.ifq + [t])) == Front(c) + [t]
  {
  }

  // ---------------------------------------------------------------- the branches of do_fetch_0

  lemma OrphanReadInv(c: Core)
    requires Inv(c) && c.fs.earlyRedir > 0
    ensures var c1 := IssueRead(c, true);
      var c' := c1.(fs := c1.fs.(earlyRedir := c1.fs.earlyRedir - 1));
      Inv(c') && Abs(c') == Abs(c)
  {
    hide Inv, Abs, Front, Wanted, Waiting;
    RevealInv(c);
    var c1 := IssueRead(c, true);
    var c' := c1.(fs := c1.fs.(earlyRedir := c1.fs.earlyRedir - 1));
    WantedAppend(c.fs.respIsOrphan, c.log.outstanding, true, c.log.nextRid);
    assert OrphansOk(c'.fs.respIsOrphan, c'.log.outstanding, c'.log.nextRid, c'.ifq);
    OnlyOrphans(c, c');
  }

  /** One entry joins the queue: a placeholder, or the pending input instruction. */
  predicate Pushed(c: Core, c': Core, t: Trans) {
    && |c.ifq| < c.cfg.cap
    && c' == c.(input := c'.input, ifq := c.ifq + [t], hist := c'.hist, fs := c'.fs, log := c'.log)
    && c'.log == c.log.(outstanding := c'.log.outstanding, nextRid := c'.log.nextRid,
                        contrib := c'.log.contrib, predLog := c'.log.predLog, branches := c'.log.branches)
    && c'.hist.mode == c.hist.mode && |c'.hist.ghr| == |c.hist.ghr|
    && Good(t, c.log.trace)
    && if t.isWrongPath then c'.input == c.input
       else c'.input.None? && c.input.Some? && c.input.value.pos == t.pos
  }

  lemma PushedAbs(c: Core, c': Core, t: Trans)
    requires Pushed(c, c', t)
    ensures Abs(c') == Abs(c) && Front(c') == Front(c) + [t]
  {
    hide Front, Kinds, AtBoth, Good;
    assert Front(c') == Front(c) + [t] by {
      SameFront(c', c.(ifq := c.ifq + [t]));
      FrontAppend(c, t);
    }
    PosConcat(Front(c), [t]);
    assert Pos([t]) == if t.isWrongPath then [] else [t.pos] by { assert [t][1..] == []; }
    assert Pos(Front(c')) + At(c'.input) == Pos(Front(c)) + At(c.input);
  }

  lemma PushInv(c: Core, c': Core, t: Trans)
    requires Inv(c) && Pushed(c, c', t)
    requires OrphansOk(c'.fs.respIsOrphan, c'.log.outstanding, c'.log.nextRid, c'.ifq)
    requires PathOk(Front(c) + [t], c'.fs)
    requires HistoryOk(c'.hist, c'.log.predLog, c'.log.contrib, OffPath(c'.fs), Front(c) + [t])
    requires BranchesOk(c'.log.predLog, c'.log.contrib, c'.log.branches, c.hist.mode, |c.hist.ghr|)
    ensures Inv(c') && Abs(c') == Abs(c)
  {
    hide R.Inv, BranchesOk, RingFits, OrphansOk, HistoryOk, PathOk, LsuOk, BackOk, CountOk, Scoreboard, Front, Abs, Good;
    PushedAbs(c, c', t);
  }

  /** One more lookup off the right path leaves the record of right-path branches valid. */
  lemma LookupBranches(predLog: seq<seq<bool>>, x: seq<bool>, contrib: seq<bool>, branches: seq<Seen>, mode: H.Mode, len: nat)
    requires BranchesOk(predLog, contrib, branches, mode, len)
    ensures BranchesOk(predLog + [x], contrib, branches, mode, len)
  {
  }

  lemma BranchBranches(hist: H.Hist, predLog: seq<seq<bool>>, contrib: seq<bool>, branches: seq<Seen>, inst: Inst, q: Query)
    requires BranchesOk(predLog, contrib, branches, hist.mode, |hist.ghr|)
    requires !hist.mode.NoHistory? ==> hist.ghr == H.LastBits(contrib, |hist.ghr|)
    ensures var accurate := Judge(Taken(inst), Target(inst), Lookup(hist, q).1);
      BranchesOk(predLog + [hist.ghr], contrib + Contribution(hist.mode, inst, accurate, q),
                 branches + [Seen(|predLog|, |contrib|, Taken(inst), q.btb != 0, q.ras.Some?)], hist.mode, |hist.ghr|)
  {
    var accurate := Judge(Taken(inst), Target(inst), Lookup(hist, q).1);
    var bits := Contribution(hist.mode, inst, accurate, q);
    var seen := Seen(|predLog|, |contrib|, Taken(inst), q.btb != 0, q.ras.Some?);
    BranchOutcome(hist, contrib, branches, inst, q, seen);
    hide Contribution, Judge, Lookup, Outcomes, H.LastBits;
    assert (contrib + bits)[..|contrib|] == contrib;
    forall b | b in branches ensures (contrib + bits)[..b.before] == contrib[..b.before] {
    }
    assert forall b | b in branches :: b in branches + [seen];
  }

  /** One more branch appends its direction to the contributions, and to the outcomes, in step. */
  lemma BranchOutcome(hist: H.Hist, contrib: seq<bool>, branches: seq<Seen>, inst: Inst, q: Query, seen: Seen)
    requires seen.taken == Taken(inst) && seen.hit == (q.btb != 0) && seen.viaRas == q.ras.Some?
    ensures var accurate := Judge(Taken(inst), Target(inst), Lookup(hist, q).1);
      hist.mode.Tage? && !seen.viaRas && contrib == Outcomes(branches)
      ==> contrib + Contribution(hist.mode, inst, accurate, q) == Outcomes(branches + [seen])
  {
    var bs := branches + [seen];
    assert bs[..|bs| - 1] == branches;
    if hist.mode.Tage? && !seen.viaRas { TageContributionIsTruth(hist, inst, q); }
  }

  /** Without a return stack, the bit TAGE keeps for a branch is its real direction, if it hit the BTB or was taken. */
  lemma TageContributionIsTruth(hist: H.Hist, inst: Inst, q: Query)
    requires hist.mode.Tage? && q.ras.None?
    ensures Contribution(hist.mode, inst, Judge(Taken(inst), Target(inst), Lookup(hist, q).1), q)
         == if q.btb != 0 || Taken(inst) then [Taken(inst)] else []
  {
  }

  /**
   With a return stack it fails exactly for a correctly predicted return that the tables called not taken
   (or, with an all-zero return address, for one not taken that they called taken).
   */
  lemma TageContributionWithRas(hist: H.Hist, inst: Inst, q: Query)
    requires hist.mode.Tage?
    ensures Contribution(hist.mode, inst, Judge(Taken(inst), Target(inst), Lookup(hist, q).1), q)
         == (if q.btb != 0 || Taken(inst) then [Taken(inst)] else [])
       <==> !(q.btb != 0 && q.ras.Some? &&
              if q.ras.value == 0 then q.dir && !Taken(inst)
              else !q.dir && Taken(inst) && q.ras.value == Target(inst))
  {
  }

  /**
   GShare shifts on a BTB miss too: its bit is the real direction unless a not-taken branch missed and was
   called taken, or the return stack was right against the tables as for TAGE.
   */
  lemma GshareContribution(hist: H.Hist, inst: Inst, q: Query)
    requires hist.mode.Gshare?
    ensures Contribution(hist.mode, inst, Judge(Taken(inst), Target(inst), Lookup(hist, q).1), q) == [Taken(inst)]
       <==> && !(q.dir && !Taken(inst) && (q.btb == 0 || q.ras == Some(0)))
            && !(!q.dir && Taken(inst) && q.btb != 0 && q.ras == Some(Target(inst)) != Some(0))
  {
  }

  lemma WrongPathPath(f: seq<Trans>, fs: FetchState, fs': FetchState, t: Trans)
    requires PathOk(f, fs) && OffPath(fs) && t.isWrongPath && !t.brMispred
    requires fs' == fs.(respIsOrphan := fs'.respIsOrphan)
    ensures PathOk(f + [t], fs') && OffPath(fs')
  {
    var b: nat :| MispredAt(f, b);
    assert MispredAt(f + [t], b);
  }

  lemma WrongPathInv(c: Core, pc: nat, q: Query)
    requires Inv(c) && OffPath(c.fs) && |c.ifq| < c.cfg.cap
    ensures var c' := WrongPathFetch(c, pc, q); Inv(c') && Abs(c') == Abs(c)
  {
    var c' := WrongPathFetch(c, pc, q);
    var t := c'.ifq[|c.ifq|];
    var f := Front(c);
    RevealRing(c);
    hide R.Inv, BranchesOk, RingFits, FrontOk, OrphansOk, PathOk, HistoryOk, LsuOk, BackOk, CountOk, Scoreboard, Abs, Lookup, Front;
    WrongPathHistory(c.hist, c.log.predLog, c.log.contrib, f, t, q);
    LookupHistory(c.hist, c.log.predLog, q);
    LookupBranches(c.log.predLog, c.hist.ghr, c.log.contrib, c.log.branches, c.hist.mode, |c.hist.ghr|);
    AppendOrphans(c.fs.respIsOrphan, c.log.outstanding, c.log.nextRid, c.ifq, t);
    WrongPathPath(f, c.fs, c'.fs, t);
    PushInv(c, c', t);
  }

  lemma RevealRing(c: Core)
    requires Inv(c)
    ensures c.hist.mode.Tage? ==> H.RingOk(c.hist, c.log.predLog)
    ensures !OffPath(c.fs) && !c.hist.mode.NoHistory? ==> c.hist.ghr == H.LastBits(c.log.contrib, |c.hist.ghr|)
  {
  }

  lemma SameFront(c: Core, d: Core)
    requires c.ifq == d.ifq && c.fetch == d.fetch && c.decode == d.decode
    ensures Front(c) == Front(d)
  {
  }

  lemma UnblockInv(c: Core)
    requires Inv(c) && !OffPath(c.fs)
    ensures var c' := Unblock(c); Inv(c') && Abs(c') == Abs(c) && !OffPath(c'.fs) && !c'.fs.wpFlushed
  {
    hide R.Inv, BranchesOk, RingFits, OrphansOk, HistoryOk, LsuOk, BackOk, CountOk, Scoreboard, FrontOk, Pos, Kinds, AtBoth;
    var c' := Unblock(c);
    assert Front(c') == Front(c);
  }

  lemma RealFetchPath(c: Core, now: nat, q: Query)
    requires PathOk(Front(c), c.fs) && !OffPath(c.fs) && !c.fs.wrongPath && c.input.Some? && !c.input.value.isWrongPath
    ensures var c' := RealFetch(c, now, q);
      |c'.ifq| == |c.ifq| + 1 && PathOk(Front(c) + [c'.ifq[|c.ifq|]], c'.fs)
      && OffPath(c'.fs) == c'.ifq[|c.ifq|].brMispred
  {
    hide Lookup, Judge, Front;
    var c' := RealFetch(c, now, q);
    var f := Front(c);
    var t := c'.ifq[|c.ifq|];
    if t.brMispred {
      assert forall i :: 0 <= i < |f| ==> f[i] in f;
      assert MispredAt(f + [t], |f|);
    }
  }

  lemma RealFetchHistory(c: Core, now: nat, q: Query)
    requires HistoryOk(c.hist, c.log.predLog, c.log.contrib, false, Front(c))
    requires BranchesOk(c.log.predLog, c.log.contrib, c.log.branches, c.hist.mode, |c.hist.ghr|)
    requires c.input.Some? && forall u | u in Front(c) :: Right(u)
    ensures var c' := RealFetch(c, now, q);
      && |c'.ifq| == |c.ifq| + 1
      && HistoryOk(c'.hist, c'.log.predLog, c'.log.contrib, c'.ifq[|c.ifq|].brMispred, Front(c) + [c'.ifq[|c.ifq|]])
      && BranchesOk(c'.log.predLog, c'.log.contrib, c'.log.branches, c.hist.mode, |c.hist.ghr|)
  {
    var c' := RealFetch(c, now, q);
    var t := c'.ifq[|c.ifq|];
    if t.inst.isBranch {
      BranchBranches(c.hist, c.log.predLog, c.log.contrib, c.log.branches, t.inst, q);
      hide BranchesOk, Lookup, Front, Judge;
      BranchHistory(c.hist, c.log.predLog, c.log.contrib, Front(c), t, q);
    } else {
      hide BranchesOk, HistoryOk, Front;
      NoLookupHistory(c.hist, c.log.predLog, c.log.contrib, Front(c), t);
      assert c'.log.branches == c.log.branches && c'.log.contrib == c.log.contrib;
    }
  }

  lemma RealFetchInv(c: Core, now: nat, q: Query)
    requires Inv(c) && !OffPath(c.fs) && !c.fs.wpFlushed && !c.fs.wrongPath
    requires |c.ifq| < c.cfg.cap && c.input.Some?
    ensures var c' := RealFetch(c, now, q); Inv(c') && Abs(c') == Abs(c)
  {
    RealPushed(c, now, q);
    RealFetchPath(c, now, q);
    RealFetchHistory(c, now, q);
    RealFetchOrphans(c, now, q);
    var c' := RealFetch(c, now, q);
    hide Inv, Abs, Pushed, OrphansOk, PathOk, HistoryOk, BranchesOk, Front, RealFetch;
    PushInv(c, c', c'.ifq[|c.ifq|]);
  }

  lemma RealFetchOrphans(c: Core, now: nat, q: Query)
    requires OrphansOk(c.fs.respIsOrphan, c.log.outstanding, c.log.nextRid, c.ifq) && c.input.Some?
    ensures var c' := RealFetch(c, now, q); OrphansOk(c'.fs.respIsOrphan, c'.log.outstanding, c'.log.nextRid, c'.ifq)
  {
    var c' := RealFetch(c, now, q);
    hide OrphansOk, Lookup, Judge;
    AppendOrphans(c.fs.respIsOrphan, c.log.outstanding, c.log.nextRid, c.ifq, c'.ifq[|c.ifq|]);
  }

  lemma RealPushed(c: Core, now: nat, q: Query)
    requires Inv(c) && |c.ifq| < c.cfg.cap && c.input.Some?
    ensures var c' := RealFetch(c, now, q);
      |c'.ifq| == |c.ifq| + 1 && Pushed(c, c', c'.ifq[|c.ifq|])
  {
    hide R.Inv, BranchesOk, RingFits, OrphansOk, HistoryOk, PathOk, LsuOk, BackOk, CountOk, Scoreboard;
    RevealRing(c);
    LookupHistory(c.hist, c.log.predLog, q);
    hide Lookup;
  }
}

/**
 Cycle attribution. The pipeline charges whole intervals when the cause changes; the reference charges every
 cycle by itself when it ends. Both give the same five buckets.
 */
module Stall {
  import opened Common

  datatype Cause = NoStall | NoInst | LsuStall | BrMispred | Raw

  datatype Buckets = Buckets(nostall: nat, noinst: nat, lsu: nat, brmiss: nat, raw: nat) {
    function Total(): nat {
      nostall + noinst + lsu + brmiss + raw
    }
  }

  const NOTHING := Buckets(0, 0, 0, 0, 0)

  datatype State = State(buckets: Buckets, insts: nat, cycles: nat, last: nat, reset: nat, cause: Cause, recovery: bool)

  const START := State(NOTHING, 0, 0, 0, 0, NoInst, false)

  /** Where a cycle without a commit goes. */
  function Charge(b: Buckets, cause: Cause, recovery: bool, gap: nat): Buckets {
    if recovery && cause != NoStall then b.(brmiss := b.brmiss + gap)
    else
      match cause
      case LsuStall => b.(lsu := b.lsu + gap)
      case Raw => b.(raw := b.raw + gap)
      case BrMispred => b.(brmiss := b.brmiss + gap)
      case _ => b.(noinst := b.noinst + gap)
  }

  /** flush_stall_cycles */
  function Flush(s: State, until: nat): State {
    if until <= s.last then s
    else s.(buckets := Charge(s.buckets, s.cause, s.recovery, until - s.last), last := until)
  }

  /** set_stall */
  function SetStall(s: State, cause: Cause, now: nat): State {
    var c := if s.recovery && cause != NoStall then BrMispred else cause;
    if c == s.cause then s else Flush(s, now).(cause := c)
  }

  /** An EX flush begins the recovery. */
  function Recover(s: State, now: nat): State {
    Flush(s, now).(recovery := true)
  }

  /** The statistics part of do_writeback; `cause` is what holds after the commit. */
  function Commit(s: State, cause: Cause, now: nat): State
    requires now >= s.reset
  {
    var s1 := Flush(s, now);
    s1.(buckets := s1.buckets.(nostall := s1.buckets.nostall + 1), last := now + 1, recovery := false, cause := cause,
        insts := s1.insts + 1, cycles := now - s1.reset)
  }

  /** reset_stats */
  function Reset(s: State, now: nat): State {
    State(NOTHING, 0, 0, now, now, NoInst, false)
  }

  datatype Event =
    | Set(cause: Cause)
    | Sync                  // flush_stall_cycles alone, at a judged misprediction
    | Recovery
    | CommitOne(next: Cause)
    | ResetStats
    | EndTick

  function Apply(s: State, e: Event, now: nat): State
    requires now >= s.reset
  {
    match e
    case Set(c) => SetStall(s, c, now)
    case Sync => Flush(s, now)
    case Recovery => Recover(s, now)
    case CommitOne(c) => Commit(s, c, now)
    case ResetStats => Reset(s, now)
    case EndTick => s
  }

  // ---------------------------------------------------------------- the reference: cycle by cycle

  datatype Ref = Ref(buckets: Buckets, cause: Cause, recovery: bool, committed: bool, ended: nat)

  const REF_START := Ref(NOTHING, NoInst, false, false, 0)

  /** A cycle with a commit is no stall; during a recovery any other is a misprediction; else its cause at its end decides. */
  function EndCycle(r: Ref): Ref {
    var b := r.buckets;
    var lost := !r.committed && ((r.recovery && r.cause != NoStall) || r.cause == BrMispred);
    var waits := !r.committed && !lost;
    r.(buckets := Buckets(b.nostall + (if r.committed then 1 else 0),
                          b.noinst + (if waits && (r.cause == NoInst || r.cause == NoStall) then 1 else 0),
                          b.lsu + (if waits && r.cause == LsuStall then 1 else 0),
                          b.brmiss + (if lost then 1 else 0),
                          b.raw + (if waits && r.cause == Raw then 1 else 0)),
       committed := false, ended := r.ended + 1)
  }

  function RefApply(r: Ref, e: Event): Ref {
    match e
    case Set(c) => r.(cause := if r.recovery && c != NoStall then BrMispred else c)
    case Sync => r
    case Recovery => r.(recovery := true)
    case CommitOne(c) => r.(committed := true, recovery := false, cause := c)
    case ResetStats => REF_START
    case EndTick => EndCycle(r)
  }

  /** A run: the tick, the two accounts. The pipeline commits at most once per tick. */
  datatype Pair = Pair(now: nat, fast: State, slow: Ref)

  function Step(p: Pair, e: Event): Pair
    requires p.now >= p.fast.reset
  {
    Pair(if e.EndTick? then p.now + 1 else p.now, Apply(p.fast, e, p.now), RefApply(p.slow, e))
  }

  predicate Possible(p: Pair, e: Event) {
    p.now >= p.fast.reset && (e.CommitOne? ==> !p.slow.committed)
  }

  function Run(es: seq<Event>): Option<Pair> {
    if es == [] then Some(Pair(0, START, REF_START))
    else
      match Run(es[..|es| - 1])
      case None => None
      case Some(p) => if Possible(p, es[|es| - 1]) then Some(Step(p, es[|es| - 1])) else None
  }

  /** The two accounts agree once the fast one is brought up to the current tick. */
  predicate Agree(p: Pair) {
    var b := Flush(p.fast, p.now).buckets;
    && p.fast.reset <= p.fast.last <= p.now + 1 && p.fast.reset <= p.now
    && p.fast.cause == p.slow.cause && p.fast.recovery == p.slow.recovery
    && (p.slow.committed <==> p.fast.last == p.now + 1)
    && b == (if p.slow.committed then p.slow.buckets.(nostall := p.slow.buckets.nostall + 1) else p.slow.buckets)
    && p.slow.ended == p.now - p.fast.reset
    && p.slow.buckets.Total() == p.slow.ended
    && p.fast.insts == p.fast.buckets.nostall
  }

  lemma StepAgree(p: Pair, e: Event)
    requires Agree(p) && Possible(p, e)
    ensures Agree(Step(p, e))
  {
    if e.EndTick? { EndAgree(p); }
  }

  /** The end of a tick: the interval to flush grows by the cycle that the reference charges. */
  lemma EndAgree(p: Pair)
    requires Agree(p)
    ensures Agree(Step(p, EndTick))
  {
    if p.slow.committed || p.now <= p.fast.last {
    } else {
      ChargeMore(p.fast.buckets, p.fast.cause, p.fast.recovery, p.now - p.fast.last);
    }
  }

  lemma ChargeMore(b: Buckets, cause: Cause, recovery: bool, gap: nat)
    ensures Charge(b, cause, recovery, gap + 1) == Charge(Charge(b, cause, recovery, gap), cause, recovery, 1)
    ensures Charge(b, cause, recovery, gap).Total() == b.Total() + gap
  {
  }

  lemma {:induction false} RunAgree(es: seq<Event>)
    ensures Run(es).Some? ==> Agree(Run(es).value)
  {
    if es != [] {
      RunAgree(es[..|es| - 1]);
      var p := Run(es[..|es| - 1]);
      if p.Some? && Possible(p.value, es[|es| - 1]) { StepAgree(p.value, es[|es| - 1]); }
    }
  }

  // ---------------------------------------------------------------- main results

  /** Charging intervals equals charging cycle by cycle, over every run. */
  lemma IntervalsAreCycles(es: seq<Event>)
    requires Run(es).Some?
    ensures var p := Run(es).value;
      Flush(p.fast, p.now).buckets == if p.slow.committed then EndCycle(p.slow).buckets else p.slow.buckets
  {
    RunAgree(es);
  }

  /** The five buckets always add up to the ticks accounted for, and the no-stall bucket counts the commits. */
  lemma BucketsConserve(es: seq<Event>)
    requires Run(es).Some?
    ensures var s := Run(es).value.fast;
      s.buckets.Total() == s.last - s.reset && s.insts == s.buckets.nostall
  {
    RunAgree(es);
  }

  /** A commit leaves the buckets one above the cycle count it stores, exactly when the tick had no commit before. */
  lemma CommitSum(es: seq<Event>, cause: Cause)
    requires Run(es).Some?
    ensures var p := Run(es).value;
      && p.now >= p.fast.reset
      && var s := Commit(p.fast, cause, p.now);
         s.buckets.Total() == s.cycles + 1 <==> !p.slow.committed
  {
    RunAgree(es);
  }

  function RefRun(r: Ref, es: seq<Event>): Ref {
    if es == [] then r else RefApply(RefRun(r, es[..|es| - 1]), es[|es| - 1])
  }

  function Ticks(es: seq<Event>): nat {
    if es == [] then 0 else Ticks(es[..|es| - 1]) + if es[|es| - 1].EndTick? then 1 else 0
  }

  /** Events between an EX flush and the next commit. */
  predicate Recovering(es: seq<Event>) {
    forall i :: 0 <= i < |es| ==> !es[i].CommitOne? && !es[i].ResetStats? && es[i] != Set(NoStall)
  }

  /** Cycles that end without a commit: all of them but the first, if that one has committed before the flush. */
  function Idle(committed: bool, ticks: nat): nat {
    if committed && ticks > 0 then ticks - 1 else ticks
  }

  /** Cycle by cycle: after the cycle of the flush itself, every one goes to the misprediction bucket. */
  lemma {:induction false} RecoveryCycles(r: Ref, es: seq<Event>)
    requires r.recovery && r.cause != NoStall && Recovering(es)
    ensures var r' := RefRun(r, es); var idle := Idle(r.committed, Ticks(es));
      && r'.buckets == r.buckets.(nostall := r.buckets.nostall + (Ticks(es) - idle), brmiss := r.buckets.brmiss + idle)
      && r'.recovery && r'.cause != NoStall && r'.committed == (r.committed && Ticks(es) == 0)
  {
    if es != [] { RecoveryCycles(r, es[..|es| - 1]); }
  }

  lemma {:induction false} RunOn(es: seq<Event>, more: seq<Event>)
    requires Run(es).Some? && Recovering(more)
    ensures Run(es + more).Some? && Run(es + more).value.slow == RefRun(Run(es).value.slow, more)
    ensures Run(es + more).value.now == Run(es).value.now + Ticks(more)
  {
    hide Apply;
    if more == [] {
      assert es + more == es;
    } else {
      var n := |more| - 1;
      RunOn(es, more[..n]);
      assert (es + more)[..|es + more| - 1] == es + more[..n];
      RunAgree(es + more[..n]);
    }
  }

  /**
   From an EX flush to the next commit every cycle goes to the misprediction bucket of the pipeline, whatever
   the stages report. A commit earlier in the cycle of the flush keeps that one cycle.
   */
  lemma RecoveryIsMisprediction(es: seq<Event>, more: seq<Event>)
    requires Run(es).Some? && Run(es).value.fast.recovery && Run(es).value.fast.cause != NoStall && Recovering(more)
    ensures Run(es + more).Some? && Run(es + more).value.now == Run(es).value.now + Ticks(more)
    ensures var p, q := Run(es).value, Run(es + more).value;
      var b := Flush(p.fast, p.now).buckets;
      Flush(q.fast, q.now).buckets == b.(brmiss := b.brmiss + Idle(p.slow.committed, Ticks(more)))
  {
    hide Run, RefRun;
    RunAgree(es);
    RunOn(es, more);
    RecoveryCycles(Run(es).value.slow, more);
    IntervalsAreCycles(es);
    IntervalsAreCycles(es + more);
  }
}

/** The stall counters as the source has them. */
module StallClass {
  import opened Stall

  class StallAccount {
    var lastTick: nat
    var resetTick: nat
    var cause: Cause
    var inBrRecovery: bool
    var nostall: nat
    var noinst: nat
    var lsuStall: nat
    var brmissStall: nat
    var rawStall: nat
    var insts: nat
    var cycles: nat

    ghost function Value(): State
      reads this
    {
      State(Buckets(nostall, noinst, lsuStall, brmissStall, rawStall), insts, cycles, lastTick, resetTick, cause, inBrRecovery)
    }

    constructor ()
      ensures Value() == START
    {
      lastTick, resetTick, cause, inBrRecovery := 0, 0, NoInst, false;
      nostall, noinst, lsuStall, brmissStall, rawStall, insts, cycles := 0, 0, 0, 0, 0, 0, 0;
    }

    method FlushStallCycles(until: nat)
      modifies this
      ensures Value() == Flush(old(Value()), until)
    {
      if until <= lastTick { return; }
      var gap := until - lastTick;
      if inBrRecovery && cause != NoStall {
        brmissStall := brmissStall + gap;
        lastTick := until;
        return;
      }
      match cause {
        case LsuStall => lsuStall := lsuStall + gap;
        case Raw => rawStall := rawStall + gap;
        case BrMispred => brmissStall := brmissStall + gap;
        case _ => noinst := noinst + gap;
      }
      lastTick := until;
    }

    method SetCause(c: Cause, now: nat)
      modifies this
      ensures Value() == SetStall(old(Value()), c, now)
    {
      var newCause := if inBrRecovery && c != NoStall then BrMispred else c;
      if newCause == cause { return; }
      FlushStallCycles(now);
      cause := newCause;
    }

    method StartRecovery(now: nat)
      modifies this
      ensures Value() == Recover(old(Value()), now)
    {
      FlushStallCycles(now);
      inBrRecovery := true;
    }

    /** do_writeback, for a committed branch that was mispredicted, a load or store that still waits, or neither */
    method CommitInst(brMispred: bool, memWaits: bool, now: nat)
      requires now >= resetTick
      modifies this
      ensures Value() == Commit(old(Value()), if brMispred then BrMispred else if memWaits then LsuStall else NoInst, now)
    {
      FlushStallCycles(now);
      nostall := nostall + 1;
      lastTick := now + 1;
      if inBrRecovery { inBrRecovery := false; }
      if brMispred {
        cause := BrMispred;
      } else if memWaits {
        cause := LsuStall;
      } else {
        cause := NoInst;
      }
      insts := insts + 1;
      cycles := now - resetTick;
    }

    method ResetAll(now: nat)
      modifies this
      ensures Value() == Reset(old(Value()), now)
    {
      nostall, noinst, lsuStall, brmissStall, rawStall, insts, cycles := 0, 0, 0, 0, 0, 0, 0;
      lastTick := now;
      resetTick := now;
      cause := NoInst;
      inBrRecovery := false;
    }
  }
}

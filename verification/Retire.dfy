/**
 The retirement discipline that the pipeline follows, without its stages: a machine over trace
 positions. `front` holds fetched instructions not yet past Decode (and the one waiting to be
 fetched), `back` the ones in Execute and Memory, `ext` the one in the MUL or DIV unit. The unit
 bypasses Memory, so it can be overtaken; it may commit only when `back` is empty.
 */
module Retire {
  import opened Common

  /** What matters of an instruction here: the register it writes (0 for none) and its unit. */
  datatype Kind = Kind(dst: nat, isExt: bool)

  datatype State = State(
    trace: seq<Kind>,
    front: seq<nat>,
    back: seq<nat>,
    ext: seq<nat>,
    commits: seq<nat>)

  datatype Action = Feed(kind: Kind) | Issue | Dispatch | CommitBack | CommitExt

  const INIT := State([], [], [], [], [])

  /** True if position p may leave Decode for Execute without a write-after-write hazard on the unit. */
  predicate NoWaw(s: State, p: nat) {
    p < |s.trace| &&
    forall x | x in s.ext :: x < |s.trace| && (s.trace[p].dst == 0 || s.trace[x].dst != s.trace[p].dst)
  }

  predicate Enabled(s: State, a: Action) {
    match a
    case Feed(_) => true
    case Issue => s.front != [] && NoWaw(s, s.front[0])
    case Dispatch => s.front != [] && s.ext == []
    case CommitBack => s.back != []
    case CommitExt => s.ext != [] && s.back == []
  }

  function Do(s: State, a: Action): State
    requires Enabled(s, a)
  {
    match a
    case Feed(kind) => s.(trace := s.trace + [kind], front := s.front + [|s.trace|])
    case Issue => s.(back := s.back + [s.front[0]], front := s.front[1..])
    case Dispatch => s.(ext := [s.front[0]], front := s.front[1..])
    case CommitBack => s.(back := s.back[1..], commits := s.commits + [s.back[0]])
    case CommitExt => s.(ext := s.ext[1..], commits := s.commits + [s.ext[0]])
  }

  /** The positions that have left Decode: everything older than `front`. */
  function Issued(s: State): int {
    |s.trace| - |s.front|
  }

  /** Each position that left Decode is committed, in `back` or in `ext`, exactly once. */
  ghost predicate Conserved(s: State) {
    && Issued(s) >= 0
    && s.front == Range(Issued(s), |s.trace|)
    && multiset(s.commits) + multiset(s.back) + multiset(s.ext) == multiset(Range(0, Issued(s)))
    && |s.ext| <= 1
    && forall i, j :: 0 <= i < j < |s.back| ==> s.back[i] < s.back[j]
  }

  /** No instruction that waits in `back` shares its register with an older one in the unit. */
  ghost predicate NoHazard(s: State) {
    forall x, t | x in s.ext && t in s.back && x < t ::
      x < |s.trace| && t < |s.trace| && (s.trace[t].dst == 0 || s.trace[x].dst != s.trace[t].dst)
  }

  predicate SameRegister(s: State, p: nat, q: nat) {
    p < |s.trace| && q < |s.trace| && s.trace[p].dst == s.trace[q].dst != 0
  }

  /** Commits to one register happen in trace order. */
  ghost predicate RegisterOrder(s: State) {
    forall i, j | 0 <= i < j < |s.commits| && SameRegister(s, s.commits[i], s.commits[j]) ::
      s.commits[i] < s.commits[j]
  }

  predicate InFlight(s: State, p: nat) {
    p in s.back || p in s.ext || p in s.front
  }

  /** A committed write is older than every write to the same register still in flight. */
  ghost predicate CommittedAreOlder(s: State) {
    forall q: nat, p: nat | q in s.commits && InFlight(s, p) && SameRegister(s, q, p) :: q < p
  }

  ghost predicate Inv(s: State) {
    Conserved(s) && NoHazard(s) && RegisterOrder(s) && CommittedAreOlder(s)
  }

  /** Membership facts that follow from the multiset form of conservation. */
  lemma Partition(s: State)
    requires Conserved(s)
    ensures forall p: nat :: p < Issued(s) <==> p in s.commits || p in s.back || p in s.ext
    ensures forall p | p in s.back :: p !in s.commits && p !in s.ext
    ensures forall p | p in s.ext :: p !in s.commits
    ensures forall p :: p in s.front <==> Issued(s) <= p < |s.trace|
    ensures forall i, j :: 0 <= i < j < |s.commits| ==> s.commits[i] != s.commits[j]
    ensures |s.commits| + |s.back| + |s.ext| + |s.front| == |s.trace|
  {
    var all: multiset<nat> := multiset(s.commits) + multiset(s.back) + multiset(s.ext);
    var r: seq<nat> := Range(0, Issued(s));
    assert all == multiset(r);
    forall p: nat
      ensures multiset(r)[p] == if p < Issued(s) then 1 else 0
    {
      RangeCount(Issued(s), p);
    }
    forall p: nat
      ensures p < Issued(s) <==> p in s.commits || p in s.back || p in s.ext
      ensures p in s.back ==> p !in s.commits && p !in s.ext
      ensures p in s.ext ==> p !in s.commits
    {
      assert multiset(r)[p] == multiset(s.commits)[p] + multiset(s.back)[p] + multiset(s.ext)[p];
      assert p in s.commits <==> p in multiset(s.commits);
      assert p in s.back <==> p in multiset(s.back);
      assert p in s.ext <==> p in multiset(s.ext);
    }
    forall i, j | 0 <= i < j < |s.commits|
      ensures s.commits[i] != s.commits[j]
    {
      TwiceCount(s.commits, i, j);
      RangeCount(Issued(s), s.commits[i]);
      assert multiset(s.commits)[s.commits[i]] <= all[s.commits[i]];
    }
    assert |all| == |r|;
    forall p ensures p in s.front <==> Issued(s) <= p < |s.trace| {
      if Issued(s) <= p < |s.trace| { assert s.front[p - Issued(s)] == p; }
    }
  }

  lemma RangeCount(n: nat, p: nat)
    ensures multiset(Range(0, n))[p] == if p < n then 1 else 0
  {
    if n == 0 {
    } else {
      assert Range(0, n) == Range(0, n - 1) + [n - 1];
      RangeCount(n - 1, p);
    }
  }

  lemma TwiceCount(s: seq<nat>, i: nat, j: nat)
    requires i < j < |s|
    ensures s[i] == s[j] ==> multiset(s)[s[i]] >= 2
  {
    assert s == s[..j] + s[j..];
    assert s[..j][i] == s[i] && s[j..][0] == s[j];
    assert s[i] in s[..j] && s[j] in s[j..];
    assert multiset(s) == multiset(s[..j]) + multiset(s[j..]);
  }

  lemma IssuedAreOlder(s: State)
    requires Conserved(s)
    ensures forall i :: 0 <= i < |s.back| ==> s.back[i] < Issued(s)
    ensures forall i :: 0 <= i < |s.ext| ==> s.ext[i] < Issued(s)
  {
    Partition(s);
    assert forall i :: 0 <= i < |s.back| ==> s.back[i] in s.back;
    assert forall i :: 0 <= i < |s.ext| ==> s.ext[i] in s.ext;
  }

  lemma StepConserved(s: State, a: Action)
    requires Conserved(s) && Enabled(s, a)
    ensures Conserved(Do(s, a))
  {
    if a.Feed? {
    } else if a.Issue? || a.Dispatch? {
      LeaveFront(s, a);
    } else {
      Commit(s, a);
    }
  }

  lemma LeaveFront(s: State, a: Action)
    requires Conserved(s) && Enabled(s, a) && (a.Issue? || a.Dispatch?)
    ensures Conserved(Do(s, a))
  {
    var s' := Do(s, a);
    IssuedAreOlder(s);
    assert Range(0, Issued(s')) == Range(0, Issued(s)) + [s.front[0]];
    if a.Issue? {
      assert multiset(s'.back) == multiset(s.back) + multiset{s.front[0]};
    }
  }

  lemma Commit(s: State, a: Action)
    requires Conserved(s) && Enabled(s, a) && (a.CommitBack? || a.CommitExt?)
    ensures Conserved(Do(s, a))
  {
    hide Range;
    if a.CommitBack? {
      MoveHead(s.back, s.commits);
    } else {
      MoveHead(s.ext, s.commits);
    }
  }

  lemma MoveHead(xs: seq<nat>, ys: seq<nat>)
    requires xs != []
    ensures multiset(ys + [xs[0]]) + multiset(xs[1..]) == multiset(ys) + multiset(xs)
  {
    assert xs == [xs[0]] + xs[1..];
  }

  lemma StepNoHazard(s: State, a: Action)
    requires Conserved(s) && NoHazard(s) && Enabled(s, a)
    ensures NoHazard(Do(s, a))
  {
    IssuedAreOlder(s);
    var s' := Do(s, a);
    forall x, t | x in s'.ext && t in s'.back && x < t
      ensures x < |s'.trace| && t < |s'.trace| && (s'.trace[t].dst == 0 || s'.trace[x].dst != s'.trace[t].dst)
    {
      if a.Issue? && t !in s.back {
        assert t == s.front[0];
      }
    }
  }

  /** The position a commit retires is older than every same-register write left in flight. */
  lemma CommitIsOldest(s: State, a: Action, p: nat)
    requires Conserved(s) && NoHazard(s) && Enabled(s, a) && (a.CommitBack? || a.CommitExt?)
    requires InFlight(Do(s, a), p)
    requires SameRegister(s, if a.CommitBack? then s.back[0] else s.ext[0], p)
    ensures (if a.CommitBack? then s.back[0] else s.ext[0]) < p
  {
    Partition(s);
    if a.CommitBack? {
      assert s.back[0] in s.back;
      if p in s.back[1..] {
        var i :| 0 <= i < |s.back[1..]| && s.back[1..][i] == p;
        assert s.back[0] < s.back[i + 1];
      }
    } else {
      assert s.ext[0] in s.ext;
    }
  }

  lemma StepRegisters(s: State, a: Action)
    requires Inv(s) && Enabled(s, a)
    ensures RegisterOrder(Do(s, a)) && CommittedAreOlder(Do(s, a))
  {
    Partition(s);
    var s' := Do(s, a);
    if a.CommitBack? || a.CommitExt? {
      var c := if a.CommitBack? then s.back[0] else s.ext[0];
      assert InFlight(s, c);
      forall i, j | 0 <= i < j < |s'.commits| && SameRegister(s', s'.commits[i], s'.commits[j])
        ensures s'.commits[i] < s'.commits[j]
      {
        if j == |s.commits| {
          assert s.commits[i] in s.commits && SameRegister(s, s.commits[i], c);
        } else {
          assert SameRegister(s, s.commits[i], s.commits[j]);
        }
      }
      forall q: nat, p: nat | q in s'.commits && InFlight(s', p) && SameRegister(s', q, p)
        ensures q < p
      {
        assert InFlight(s, p) && SameRegister(s, q, p);
        if q !in s.commits { CommitIsOldest(s, a, p); }
      }
    } else {
      forall i, j | 0 <= i < j < |s'.commits| && SameRegister(s', s'.commits[i], s'.commits[j])
        ensures s'.commits[i] < s'.commits[j]
      {
        assert s.commits[i] in s.commits && s.commits[j] in s.commits;
        assert SameRegister(s, s.commits[i], s.commits[j]);
      }
      forall q: nat, p: nat | q in s'.commits && InFlight(s', p) && SameRegister(s', q, p)
        ensures q < p
      {
        if p < |s.trace| { assert InFlight(s, p) && SameRegister(s, q, p); }
      }
    }
  }

  lemma StepInv(s: State, a: Action)
    requires Inv(s) && Enabled(s, a)
    ensures Inv(Do(s, a))
  {
    StepConserved(s, a);
    StepNoHazard(s, a);
    StepRegisters(s, a);
  }

  /** A result from the unit never commits before an older instruction. */
  lemma ExtCommitsInOrder(s: State, q: nat)
    requires Inv(s) && Enabled(s, CommitExt) && q < s.ext[0]
    ensures q in s.commits
  {
    Partition(s);
    assert s.ext[0] in s.ext;
  }

  /** An instruction that commits from `back` overtakes at most the one in the unit, which writes elsewhere. */
  lemma BackOvertakesOnlyExt(s: State, q: nat)
    requires Inv(s) && Enabled(s, CommitBack) && q < s.back[0] && q !in s.commits
    ensures s.ext == [q] && !SameRegister(s, q, s.back[0])
  {
    Partition(s);
    assert s.back[0] in s.back;
    assert q !in s.back by {
      assert forall i :: 0 <= i < |s.back| ==> s.back[0] <= s.back[i];
    }
    assert q in s.ext;
  }
}

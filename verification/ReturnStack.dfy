/** The circular return stack against an ideal stack without bound. */
module ReturnStack {
  import opened Common
  import opened Arith

  /** The last k elements. */
  function Top(s: seq<nat>, k: nat): (t: seq<nat>)
    ensures |t| == if k < |s| then k else |s|
  {
    if k < |s| then s[|s| - k..] else s
  }

  /** What a push and a pop do to the entries held, oldest first, with room for n. */
  function Pushed(n: nat, s: seq<nat>, addr: nat): (t: seq<nat>)
    ensures |t| <= n
  {
    Top(s + [addr], n)
  }

  function Popped(s: seq<nat>): seq<nat> {
    if s == [] then s else s[..|s| - 1]
  }

  datatype Op = Push(addr: nat) | Pop

  function Run(n: nat, s: seq<nat>, ops: seq<Op>): seq<nat> {
    if ops == [] then s
    else
      var t := Run(n, s, ops[..|ops| - 1]);
      match ops[|ops| - 1]
      case Push(addr) => Pushed(n, t, addr)
      case Pop => Popped(t)
  }

  /** The ideal stack forgets nothing. */
  function IdealRun(s: seq<nat>, ops: seq<Op>): seq<nat> {
    if ops == [] then s
    else
      var t := IdealRun(s, ops[..|ops| - 1]);
      match ops[|ops| - 1]
      case Push(addr) => t + [addr]
      case Pop => Popped(t)
  }

  predicate SuffixOf(a: seq<nat>, b: seq<nat>) {
    |a| <= |b| && a == b[|b| - |a|..]
  }

  /** For every sequence of pushes and pops, what the bounded stack holds is a suffix of the ideal one. */
  lemma {:induction false} AlwaysSuffix(n: nat, ops: seq<Op>)
    ensures SuffixOf(Run(n, [], ops), IdealRun([], ops)) && |Run(n, [], ops)| <= n
  {
    if ops != [] {
      AlwaysSuffix(n, ops[..|ops| - 1]);
      var t, u := Run(n, [], ops[..|ops| - 1]), IdealRun([], ops[..|ops| - 1]);
      match ops[|ops| - 1] {
        case Push(addr) => assert SuffixOf(t + [addr], u + [addr]);
        case Pop =>
      }
    }
  }

  // ---------------------------------------------------------------- balanced calls

  /** A balanced sequence: earlier calls, then one call with what happens inside it, and its return. */
  datatype Calls = Nothing | Then(before: Calls, addr: nat, body: Calls)

  function Ops(c: Calls): seq<Op> {
    match c
    case Nothing => []
    case Then(before, addr, body) => Ops(before) + [Push(addr)] + Ops(body) + [Pop]
  }

  /** How deep the calls nest. */
  function Depth(c: Calls): nat {
    match c
    case Nothing => 0
    case Then(before, _, body) => Max(Depth(before), 1 + Depth(body))
  }

  lemma {:induction false} RunConcat(n: nat, s: seq<nat>, a: seq<Op>, b: seq<Op>)
    ensures Run(n, s, a + b) == Run(n, Run(n, s, a), b)
  {
    if b == [] {
      assert a + b == a;
    } else {
      assert (a + b)[..|a + b| - 1] == a + b[..|b| - 1];
      RunConcat(n, s, a, b[..|b| - 1]);
    }
  }

  lemma RunOne(n: nat, s: seq<nat>, op: Op)
    ensures Run(n, s, [op]) == match op case Push(addr) => Pushed(n, s, addr) case Pop => Popped(s)
  {
    assert [op][..0] == [];
  }

  lemma RunThen(n: nat, s: seq<nat>, c: Calls)
    requires c.Then?
    ensures Run(n, s, Ops(c)) == Popped(Run(n, Pushed(n, Run(n, s, Ops(c.before)), c.addr), Ops(c.body)))
  {
    var a, b := Ops(c.before), Ops(c.body);
    var push := [Push(c.addr)];
    RunConcat(n, s, a + push + b, [Pop]);
    RunConcat(n, s, a + push, b);
    RunConcat(n, s, a, push);
    RunOne(n, Run(n, s, a), Push(c.addr));
    RunOne(n, Run(n, s, a + push + b), Pop);
  }

  lemma NothingLeaves(n: nat, s: seq<nat>)
    requires |s| <= n
    ensures Run(n, s, Ops(Nothing)) == Top(s, n)
  {
  }

  /** A balanced sequence leaves the top of what was there, as far as its own depth did not push it out. */
  lemma {:induction false} BalancedLeaves(n: nat, s: seq<nat>, c: Calls)
    requires |s| <= n
    ensures Run(n, s, Ops(c)) == Top(s, Max(0, n - Depth(c)))
    decreases c
  {
    hide Pushed, Popped, Run, Ops, Top;
    if c == Nothing {
      NothingLeaves(n, s);
    } else {
      RunThen(n, s, c);
      BalancedLeaves(n, s, c.before);
      var s1 := Top(s, Max(0, n - Depth(c.before)));
      BalancedLeaves(n, Pushed(n, s1, c.addr), c.body);
      TopOfTop(s, n, Depth(c.before), Depth(c.body), c.addr);
    }
  }

  lemma TopOfTop(s: seq<nat>, n: nat, d: nat, e: nat, addr: nat)
    requires |s| <= n
    ensures var s1 := Top(s, Max(0, n - d));
      Popped(Top(Pushed(n, s1, addr), Max(0, n - e))) == Top(s, Max(0, n - Max(d, 1 + e)))
  {
  }

  /** A return finds its own call on top exactly when the calls inside it nest less deep than the stack has room. */
  lemma ReturnPredicted(n: nat, s: seq<nat>, addr: nat, body: Calls)
    requires |s| <= n
    ensures var t := Run(n, Pushed(n, s, addr), Ops(body));
      (t != [] && t[|t| - 1] == addr) <==> Depth(body) < n
  {
    BalancedLeaves(n, Pushed(n, s, addr), body);
  }

  // ---------------------------------------------------------------- the circular buffer

  class ReturnAddrStack {
    const stack: array<nat>
    var tos: nat
    var cnt: nat

    ghost predicate Valid()
      reads this
    {
      tos < stack.Length && cnt <= stack.Length
    }

    /** Place of the i-th oldest entry. */
    ghost function Place(i: nat): (p: nat)
      requires Valid() && i < cnt
      reads this
      ensures p < stack.Length
    {
      var k := tos + 1 + i - cnt;
      if k < 0 then k + stack.Length else k
    }

    ghost function Contents(): (s: seq<nat>)
      requires Valid()
      reads this, stack
      ensures |s| == cnt
    {
      seq(cnt, i requires 0 <= i < cnt && Valid() reads this, stack => stack[Place(i)])
    }

    constructor (depth: nat)
      requires depth > 0
      ensures Valid() && fresh(stack) && stack.Length == depth && Contents() == []
    {
      stack := new nat[depth](_ => 0);
      tos, cnt := 0, 0;
    }

    method PushAddr(addr: nat)
      requires Valid()
      modifies this, stack
      ensures Valid() && Contents() == Pushed(stack.Length, old(Contents()), addr)
    {
      ghost var was := Contents();
      assert (tos + 1) % stack.Length == if tos + 1 == stack.Length then 0 else tos + 1 by {
        if tos + 1 == stack.Length { DivUnique(tos + 1, 1, 0, stack.Length); } else { DivUnique(tos + 1, 0, tos + 1, stack.Length); }
      }
      tos := (tos + 1) % stack.Length;
      stack[tos] := addr;
      if cnt < stack.Length { cnt := cnt + 1; }
      forall i | 0 <= i < cnt ensures Contents()[i] == Pushed(stack.Length, was, addr)[i] {
      }
    }

    method PopAddr()
      requires Valid()
      modifies this
      ensures Valid() && Contents() == Popped(old(Contents()))
    {
      if cnt > 0 {
        tos := if tos == 0 then stack.Length - 1 else tos - 1;
        cnt := cnt - 1;
      }
    }

    /** top and valid: None for an empty stack, which the predictor does not use. */
    method TopAddr() returns (top: Option<nat>)
      requires Valid()
      ensures top == if Contents() == [] then None else Some(Contents()[|Contents()| - 1])
    {
      if cnt == 0 { return None; }
      top := Some(stack[tos]);
    }
  }
}

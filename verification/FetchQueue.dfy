/** The fetch queue: a fixed-capacity ring buffer over an array of optional slots. */
module FetchQueue {
  import opened Common

  lemma Wrap(x: nat, cap: nat)
    requires cap > 0 && x < 2 * cap
    ensures x % cap == if x < cap then x else x - cap
  {
    if x >= cap {
      assert x == cap * 1 + (x - cap);
    }
  }

  /** Array index of the i-th entry counted from head. */
  function Slot(head: nat, cap: nat, i: nat): nat {
    if head + i < cap then head + i else head + i - cap
  }

  class RingBuf<T(!new)> {
    const cap: nat
    const buf: array<Option<T>>
    var head: nat
    var tail: nat
    var cnt: nat

    /** Entries from head on are held, the other slots are free. */
    ghost predicate Valid()
      reads this, buf
    {
      && cap > 0 && buf.Length == cap
      && head < cap && cnt <= cap && tail == Slot(head, cap, cnt)
      && (forall i :: 0 <= i < cnt ==> buf[Slot(head, cap, i)].Some?)
      && (forall i :: cnt <= i < cap ==> buf[Slot(head, cap, i)].None?)
    }

    /** The entries, oldest first. */
    ghost function Contents(): (s: seq<T>)
      requires Valid()
      reads this, buf
      ensures |s| == cnt
    {
      seq(cnt, i requires 0 <= i < cnt && Valid() reads this, buf => buf[Slot(head, cap, i)].value)
    }

    constructor (capacity: nat)
      requires capacity > 0
      ensures Valid() && Contents() == [] && cap == capacity && fresh(buf)
    {
      cap := capacity;
      buf := new Option<T>[capacity](_ => None);
      head, tail, cnt := 0, 0, 0;
    }

    predicate Full()
      reads this
    {
      cnt >= cap
    }

    method PushBack(x: T)
      requires Valid() && !Full()
      modifies this, buf
      ensures Valid() && Contents() == old(Contents()) + [x]
    {
      Wrap(tail + 1, cap);
      assert Slot(head, cap, cnt) == tail;
      buf[tail] := Some(x);
      tail := (tail + 1) % cap;
      cnt := cnt + 1;
    }

    method PopFront() returns (x: T)
      requires Valid() && cnt > 0
      modifies this, buf
      ensures Valid() && old(Contents()) == [x] + Contents()
    {
      Wrap(head + 1, cap);
      assert Slot(head, cap, 0) == head;
      ghost var h := head;
      x := buf[head].value;
      buf[head] := None;
      head := (head + 1) % cap;
      cnt := cnt - 1;
      assert forall i :: 0 <= i < cap - 1 ==> Slot(head, cap, i) == Slot(h, cap, i + 1);
      assert Slot(head, cap, cap - 1) == h;
    }

    /** at(i): at(0) is the front. */
    method At(i: nat) returns (x: T)
      requires Valid() && i < cnt
      ensures x == Contents()[i]
    {
      Wrap(head + i, cap);
      assert (head + i) % cap == Slot(head, cap, i);
      x := buf[(head + i) % cap].value;
    }

    /** A write through the reference that at(i) returns. */
    method Set(i: nat, x: T)
      requires Valid() && i < cnt
      modifies buf
      ensures Valid() && Contents() == old(Contents())[i := x]
    {
      Wrap(head + i, cap);
      buf[(head + i) % cap] := Some(x);
    }

    method Clear()
      requires Valid()
      modifies this, buf
      ensures Valid() && Contents() == []
    {
      var i := 0;
      while i < cnt
        invariant 0 <= i <= cnt && head == old(head) && cnt == old(cnt) && tail == old(tail)
        invariant forall k :: 0 <= k < i ==> buf[Slot(head, cap, k)] == None
        invariant forall k :: cnt <= k < cap ==> buf[Slot(head, cap, k)] == None
      {
        Wrap(head + i, cap);
        buf[(head + i) % cap] := None;
        i := i + 1;
      }
      forall k | 0 <= k < cap
        ensures buf[k] == None
      {
        var i := if k >= head then k - head else k - head + cap;
        assert Slot(head, cap, i) == k;
      }
      head, tail, cnt := 0, 0, 0;
    }

    /** find_if_ptr: the first entry that satisfies p; cnt if there is none. */
    method FindIf(p: T -> bool) returns (k: nat)
      requires Valid()
      ensures k <= cnt
      ensures forall i :: 0 <= i < k ==> !p(Contents()[i])
      ensures k < cnt ==> p(Contents()[k])
    {
      k := 0;
      while k < cnt
        invariant k <= cnt
        invariant forall i :: 0 <= i < k ==> !p(Contents()[i])
      {
        var x := At(k);
        if p(x) { return; }
        k := k + 1;
      }
    }
  }
}

/**
 LRU as a stack: with LRU and no victim lag, each set holds the most recently used blocks that map to
 it, as many as it has ways. So a cache with more ways hits whenever one with fewer does.
 */
module LruStack {
  import opened Common
  import opened CacheBase

  /** One access: looked up at tick `at`, and filled at tick `filled` if it misses. */
  datatype Ref = Ref(addr: nat, at: nat, filled: nat)

  /** access, then handle_fill when the block was not present. */
  function Serve(c: Cache, r: Ref): Cache
    requires WellFormed(c)
  {
    AccessOk(c, r.addr, r.at);
    var (c1, w) := Access(c, r.addr, r.at);
    if Probe(c, r.addr) then c1 else Fill(c1, r.addr, w, r.filled)
  }

  lemma ServeOk(c: Cache, r: Ref)
    requires WellFormed(c)
    ensures WellFormed(Serve(c, r)) && Serve(c, r).geo == c.geo
    ensures Serve(c, r).policy == c.policy && Serve(c, r).lag == c.lag
  {
    AccessOk(c, r.addr, r.at);
    var (c1, w) := Access(c, r.addr, r.at);
    if !Probe(c, r.addr) { FillOk(c1, r.addr, w, r.filled); }
  }

  function Replay(c: Cache, rs: seq<Ref>): (c': Cache)
    requires WellFormed(c)
    ensures WellFormed(c') && c'.geo == c.geo && c'.policy == c.policy && c'.lag == c.lag
  {
    if rs == [] then c
    else
      ServeOk(Replay(c, rs[..|rs| - 1]), rs[|rs| - 1]);
      Serve(Replay(c, rs[..|rs| - 1]), rs[|rs| - 1])
  }

  /** The tick that a line is stamped with: that of the lookup for a hit, that of the refill for a miss. */
  function Touched(c: Cache, r: Ref): nat
    requires WellFormed(c)
  {
    if Probe(c, r.addr) then r.at else r.filled
  }

  /** The first tick after the last stamp. */
  function Clock(c: Cache, rs: seq<Ref>): nat
    requires WellFormed(c)
  {
    if rs == [] then 0 else Touched(Replay(c, rs[..|rs| - 1]), rs[|rs| - 1]) + 1
  }

  /** Stamps grow from one access to the next. Nothing else is asked of the ticks of lookups and refills. */
  predicate InOrder(c: Cache, rs: seq<Ref>)
    requires WellFormed(c)
  {
    rs == [] || (InOrder(c, rs[..|rs| - 1]) && Clock(c, rs[..|rs| - 1]) <= Touched(Replay(c, rs[..|rs| - 1]), rs[|rs| - 1]))
  }

  function Addrs(rs: seq<Ref>): (a: seq<nat>)
    ensures |a| == |rs| && forall i :: 0 <= i < |a| ==> a[i] == rs[i].addr
  {
    seq(|rs|, i requires 0 <= i < |rs| => rs[i].addr)
  }

  // ---------------------------------------------------------------- recency lists

  function PosOf(l: seq<nat>, x: nat): (i: nat)
    ensures i <= |l| && (i < |l| ==> l[i] == x)
    ensures forall k :: 0 <= k < i ==> l[k] != x
  {
    if l == [] || l[0] == x then 0 else 1 + PosOf(l[1..], x)
  }

  /** Element p comes to the front, the others keep their order. */
  function MoveAt(l: seq<nat>, p: nat): (r: seq<nat>)
    requires p < |l|
    ensures |r| == |l| && forall i :: 0 <= i < |r| ==> r[i] == if i == 0 then l[p] else if i <= p then l[i - 1] else l[i]
  {
    [l[p]] + l[..p] + l[p + 1..]
  }

  function MoveToFront(l: seq<nat>, x: nat): seq<nat> {
    var p := PosOf(l, x);
    if p < |l| then MoveAt(l, p) else [x] + l
  }

  /** The blocks of set s that have been accessed, most recent first. */
  function Recency(g: Geometry, addrs: seq<nat>, s: nat): seq<nat>
    requires GoodGeometry(g)
  {
    if addrs == [] then []
    else
      var a := addrs[|addrs| - 1];
      var rest := Recency(g, addrs[..|addrs| - 1], s);
      if SetOf(g, a) == s then MoveToFront(rest, TagOf(g, a)) else rest
  }

  /** The part of a recency list that fits. */
  function Kept(l: seq<nat>, ways: nat): seq<nat> {
    if |l| <= ways then l else l[..ways]
  }

  /** Moving a kept block to the front keeps the same blocks. */
  lemma KeptHit(l: seq<nat>, ways: nat, p: nat)
    requires p < |Kept(l, ways)|
    ensures Kept(MoveAt(l, p), ways) == MoveAt(Kept(l, ways), p)
  {
  }

  /** Any other block enters at the front, and the oldest leaves if there is no room. */
  lemma KeptMiss(l: seq<nat>, ways: nat, x: nat)
    requires ways > 0 && PosOf(l, x) >= |Kept(l, ways)|
    ensures Kept(MoveToFront(l, x), ways) == [x] + Kept(l, ways - 1)
  {
  }

  // ---------------------------------------------------------------- one set against its list

  function CountValid(lines: seq<Line>): nat {
    if lines == [] then 0 else (if lines[0].valid then 1 else 0) + CountValid(lines[1..])
  }

  lemma CountFacts(lines: seq<Line>)
    ensures CountValid(lines) <= |lines|
    ensures FirstInvalid(lines) < |lines| <==> CountValid(lines) < |lines|
  {
  }

  lemma CountUpdate(lines: seq<Line>, w: nat, l: Line)
    requires w < |lines|
    ensures CountValid(lines[w := l]) ==
      CountValid(lines) + (if l.valid then 1 else 0) - (if lines[w].valid then 1 else 0)
  {
    if w == 0 {
      assert lines[w := l][1..] == lines[1..];
    } else {
      assert lines[w := l][1..] == lines[1..][w - 1 := l];
      CountUpdate(lines[1..], w - 1, l);
    }
  }

  /** Way order[i] holds kept[i]. */
  ghost predicate Ranked(lines: seq<Line>, kept: seq<nat>, order: seq<nat>, now: nat) {
    && |order| == |kept|
    && forall i :: 0 <= i < |order| ==>
         order[i] < |lines| && lines[order[i]].valid && lines[order[i]].tag == kept[i] && lines[order[i]].stamp < now
  }

  /** Stamps fall along the order. */
  ghost predicate Falls(lines: seq<Line>, order: seq<nat>) {
    forall i, j :: 0 <= i < j < |order| && order[i] < |lines| && order[j] < |lines| ==>
      lines[order[i]].stamp > lines[order[j]].stamp
  }

  ghost predicate Covers(lines: seq<Line>, order: seq<nat>) {
    forall w :: 0 <= w < |lines| && lines[w].valid ==> w in order
  }

  /** `order` lists the valid ways, most recent first; their tags are the kept blocks and their stamps fall. */
  ghost predicate Tracks(lines: seq<Line>, kept: seq<nat>, order: seq<nat>, now: nat) {
    |order| == CountValid(lines) && Ranked(lines, kept, order, now) && Falls(lines, order) && Covers(lines, order)
  }

  ghost predicate TracksSome(lines: seq<Line>, kept: seq<nat>, now: nat) {
    exists order :: Tracks(lines, kept, order, now)
  }

  lemma OrderDistinct(lines: seq<Line>, kept: seq<nat>, order: seq<nat>, now: nat, p: nat)
    requires Ranked(lines, kept, order, now) && Falls(lines, order) && p < |order|
    ensures forall i :: 0 <= i < |order| && i != p ==> order[i] != order[p]
  {
  }

  lemma CoversMove(lines: seq<Line>, lines': seq<Line>, order: seq<nat>, p: nat)
    requires Covers(lines, order) && p < |order| && |lines'| == |lines|
    requires forall w :: 0 <= w < |lines| ==> lines'[w].valid == lines[w].valid
    ensures Covers(lines', MoveAt(order, p))
  {
    forall v | 0 <= v < |lines'| && lines'[v].valid ensures v in MoveAt(order, p) {
      var j :| 0 <= j < |order| && order[j] == v;
      assert MoveAt(order, p)[if j == p then 0 else if j < p then j + 1 else j] == v;
    }
  }

  /** A hit restamps way order[p]. */
  lemma TrackHit(lines: seq<Line>, kept: seq<nat>, order: seq<nat>, p: nat, now: nat, at: nat)
    requires Tracks(lines, kept, order, now) && p < |order| && now <= at
    ensures var w := order[p];
      Tracks(lines[w := lines[w].(stamp := at)], MoveAt(kept, p), MoveAt(order, p), at + 1)
  {
    hide Covers, Falls, Ranked, CountValid;
    RankedHit(lines, kept, order, p, now, at);
    var w := order[p];
    var lines' := lines[w := lines[w].(stamp := at)];
    CountUpdate(lines, w, lines[w].(stamp := at));
    CoversMove(lines, lines', order, p);
    FallsHit(lines, kept, order, p, now, at);
  }

  lemma RankedHit(lines: seq<Line>, kept: seq<nat>, order: seq<nat>, p: nat, now: nat, at: nat)
    requires Ranked(lines, kept, order, now) && Falls(lines, order) && p < |order| && now <= at
    ensures p < |kept| && order[p] < |lines|
    ensures Ranked(lines[order[p] := lines[order[p]].(stamp := at)], MoveAt(kept, p), MoveAt(order, p), at + 1)
  {
    OrderDistinct(lines, kept, order, now, p);
  }

  lemma FallsHit(lines: seq<Line>, kept: seq<nat>, order: seq<nat>, p: nat, now: nat, at: nat)
    requires Ranked(lines, kept, order, now) && Falls(lines, order) && p < |order| && now <= at
    ensures Falls(lines[order[p] := lines[order[p]].(stamp := at)], MoveAt(order, p))
  {
    OrderDistinct(lines, kept, order, now, p);
    var lines' := lines[order[p] := lines[order[p]].(stamp := at)];
    var o := MoveAt(order, p);
    forall i, j | 0 <= i < j < |o| ensures lines'[o[i]].stamp > lines'[o[j]].stamp {
      var j0 := if j <= p then j - 1 else j;
      assert o[j] == order[j0] && lines[order[j0]].stamp < now;
      if i > 0 {
        var i0 := if i <= p then i - 1 else i;
        assert o[i] == order[i0];
      }
    }
  }

  /** A miss with a free way w. */
  lemma TrackFree(lines: seq<Line>, kept: seq<nat>, order: seq<nat>, w: nat, x: nat, now: nat, at: nat)
    requires Tracks(lines, kept, order, now) && w < |lines| && !lines[w].valid && now <= at
    ensures Tracks(lines[w := Line(true, false, x, at)], [x] + kept, [w] + order, at + 1)
  {
    CountUpdate(lines, w, Line(true, false, x, at));
    assert forall i :: 0 <= i < |order| ==> order[i] != w;
  }

  /** In a full set the way with the smallest stamp holds the least recent block. */
  lemma OldestIsLast(lines: seq<Line>, kept: seq<nat>, order: seq<nat>, now: nat)
    requires Tracks(lines, kept, order, now) && lines != [] && CountValid(lines) == |lines|
    ensures MinStamp(lines) == order[|order| - 1]
  {
    var w := MinStamp(lines);
    CountFacts(lines);
    assert lines[w].valid;
    var j :| 0 <= j < |order| && order[j] == w;
    assert lines[order[|order| - 1]].stamp >= lines[w].stamp;
  }

  /** The most recent line may hold another block. */
  lemma Retag(lines: seq<Line>, kept: seq<nat>, order: seq<nat>, x: nat, now: nat)
    requires Tracks(lines, kept, order, now) && order != []
    ensures var w := order[0];
      Tracks(lines[w := Line(true, false, x, lines[w].stamp)], kept[0 := x], order, now)
  {
    OrderDistinct(lines, kept, order, now, 0);
    CountUpdate(lines, order[0], Line(true, false, x, lines[order[0]].stamp));
  }

  lemma TrackSizes(lines: seq<Line>, kept: seq<nat>, order: seq<nat>, now: nat)
    requires Tracks(lines, kept, order, now)
    ensures |kept| == |order| == CountValid(lines) <= |lines|
    ensures forall i :: 0 <= i < |order| ==> order[i] < |lines|
  {
    CountFacts(lines);
  }

  /** A miss in a full set evicts that block. */
  lemma TrackFull(lines: seq<Line>, kept: seq<nat>, order: seq<nat>, x: nat, now: nat, at: nat)
    requires Tracks(lines, kept, order, now) && lines != [] && CountValid(lines) == |lines| && now <= at
    ensures var w := MinStamp(lines);
      Tracks(lines[w := Line(true, false, x, at)], [x] + kept[..|kept| - 1], MoveAt(order, |order| - 1), at + 1)
  {
    hide Tracks, CountValid, MinStamp;
    TrackSizes(lines, kept, order, now);
    var n := |order| - 1;
    var w := order[n];
    OldestIsLast(lines, kept, order, now);
    TrackHit(lines, kept, order, n, now, at);
    var restamped := lines[w := lines[w].(stamp := at)];
    Retag(restamped, MoveAt(kept, n), MoveAt(order, n), x, at + 1);
    assert restamped[w := Line(true, false, x, at)] == lines[w := Line(true, false, x, at)];
    assert MoveAt(kept, n)[0 := x] == [x] + kept[..n];
  }

  // ---------------------------------------------------------------- whole runs

  /** Set s of c holds what fits of its recency list. */
  ghost predicate SetTracks(c: Cache, l: seq<nat>, s: nat, now: nat) {
    s < |c.sets| && TracksSome(c.sets[s], Kept(l, c.geo.assoc), now)
  }

  ghost predicate LruCache(c: Cache) {
    WellFormed(c) && c.policy.Lru? && !c.lag
  }

  predicate AllInvalid(c: Cache) {
    forall s, w :: 0 <= s < |c.sets| && 0 <= w < |c.sets[s]| ==> !c.sets[s][w].valid
  }

  lemma NoneValid(lines: seq<Line>)
    requires forall w :: 0 <= w < |lines| ==> !lines[w].valid
    ensures CountValid(lines) == 0
  {
  }

  /** The set of r after the access. */
  function Served(lines: seq<Line>, tag: nat, r: Ref): seq<Line>
    requires lines != []
  {
    var k := Find(lines, tag);
    var f := FirstInvalid(lines);
    var w := if f < |lines| then f else MinStamp(lines);
    if k < |lines| then lines[k := lines[k].(stamp := r.at)] else lines[w := Line(true, false, tag, r.filled)]
  }

  lemma ServeSet(c: Cache, r: Ref)
    requires LruCache(c)
    ensures var s := SetOf(c.geo, r.addr);
      |c.sets[s]| == c.geo.assoc > 0
      && Serve(c, r).sets == c.sets[s := Served(c.sets[s], TagOf(c.geo, r.addr), r)]
  {
    hide TagOf, SetOf;
    var s := SetOf(c.geo, r.addr);
    if !Probe(c, r.addr) { ServeMiss(c, r); }
  }

  lemma ServeMiss(c: Cache, r: Ref)
    requires LruCache(c) && !Probe(c, r.addr)
    ensures var s := SetOf(c.geo, r.addr);
      |c.sets[s]| == c.geo.assoc > 0
      && Serve(c, r).sets == c.sets[s := Served(c.sets[s], TagOf(c.geo, r.addr), r)]
  {
    hide TagOf, SetOf, SetOk, Fill, Access, FirstInvalid, MinStamp, Find;
    AccessOk(c, r.addr, r.at);
    var s := SetOf(c.geo, r.addr);
    var lines := c.sets[s];
    var (c1, w) := Access(c, r.addr, r.at);
    FillSets(c1, r.addr, w, r.filled);
    var l := Line(true, false, TagOf(c.geo, r.addr), r.filled);
    assert lines[w := Invalidated(lines[w])][w := l] == lines[w := l];
    assert c.sets[s := lines[w := Invalidated(lines[w])]][s := lines[w := l]] == c.sets[s := lines[w := l]];
  }

  predicate UniqueTags(lines: seq<Line>) {
    forall v, w :: 0 <= v < w < |lines| && lines[v].valid && lines[w].valid ==> lines[v].tag != lines[w].tag
  }

  /** A kept tag is found, and a found tag is kept. */
  lemma FindKept(lines: seq<Line>, kept: seq<nat>, order: seq<nat>, now: nat, tag: nat)
    requires Tracks(lines, kept, order, now) && UniqueTags(lines)
    ensures Find(lines, tag) < |lines| <==> PosOf(kept, tag) < |kept|
    ensures Find(lines, tag) < |lines| ==> order[PosOf(kept, tag)] == Find(lines, tag)
  {
    var k := Find(lines, tag);
    if k < |lines| {
      var j :| 0 <= j < |order| && order[j] == k;
      assert kept[j] == tag;
    }
    var p := PosOf(kept, tag);
    if p < |kept| { assert lines[order[p]].valid && lines[order[p]].tag == tag; }
  }

  lemma KeptLess(l: seq<nat>, ways: nat)
    requires ways > 0
    ensures |Kept(l, ways)| < ways ==> Kept(l, ways - 1) == Kept(l, ways)
    ensures |Kept(l, ways)| == ways ==> Kept(l, ways - 1) == Kept(l, ways)[..ways - 1]
  {
  }

  lemma MoveKept(l: seq<nat>, x: nat)
    ensures PosOf(l, x) < |l| ==> MoveToFront(l, x) == MoveAt(l, PosOf(l, x))
  {
  }

  lemma ServedHit(lines: seq<Line>, l: seq<nat>, tag: nat, r: Ref, order: seq<nat>, now: nat)
    requires lines != [] && Tracks(lines, Kept(l, |lines|), order, now) && now <= r.at
    requires UniqueTags(lines) && Find(lines, tag) < |lines|
    ensures TracksSome(Served(lines, tag, r), Kept(MoveToFront(l, tag), |lines|), r.at + 1)
  {
    hide Tracks, CountValid, MinStamp, FirstInvalid, Find, PosOf, Kept, MoveToFront;
    var kept := Kept(l, |lines|);
    TrackSizes(lines, kept, order, now);
    FindKept(lines, kept, order, now, tag);
    KeptPos(l, |lines|, tag);
    var p := PosOf(kept, tag);
    TrackHit(lines, kept, order, p, now, r.at);
    KeptHit(l, |lines|, p);
    MoveKept(l, tag);
    assert Tracks(Served(lines, tag, r), MoveAt(kept, p), MoveAt(order, p), r.at + 1);
  }

  lemma ServedMiss(lines: seq<Line>, l: seq<nat>, tag: nat, r: Ref, order: seq<nat>, now: nat)
    requires lines != [] && Tracks(lines, Kept(l, |lines|), order, now) && now <= r.filled
    requires UniqueTags(lines) && Find(lines, tag) == |lines|
    ensures TracksSome(Served(lines, tag, r), Kept(MoveToFront(l, tag), |lines|), r.filled + 1)
  {
    hide Tracks, CountValid, MinStamp, FirstInvalid, Find, PosOf, Kept, MoveToFront;
    var kept := Kept(l, |lines|);
    TrackSizes(lines, kept, order, now);
    FindKept(lines, kept, order, now, tag);
    KeptPos(l, |lines|, tag);
    KeptMiss(l, |lines|, tag);
    KeptLess(l, |lines|);
    CountFacts(lines);
    var f := FirstInvalid(lines);
    if f < |lines| {
      TrackFree(lines, kept, order, f, tag, now, r.filled);
      assert Tracks(Served(lines, tag, r), [tag] + kept, [f] + order, r.filled + 1);
    } else {
      TrackFull(lines, kept, order, tag, now, r.filled);
    }
  }

  /** One access moves its block to the front of the list that its set tracks. */
  lemma ServedTracks(lines: seq<Line>, l: seq<nat>, tag: nat, r: Ref, order: seq<nat>, now: nat)
    requires lines != [] && Tracks(lines, Kept(l, |lines|), order, now)
    requires now <= (if Find(lines, tag) < |lines| then r.at else r.filled)
    requires UniqueTags(lines)
    ensures TracksSome(Served(lines, tag, r), Kept(MoveToFront(l, tag), |lines|),
                       (if Find(lines, tag) < |lines| then r.at else r.filled) + 1)
  {
    hide Tracks, Served, Find;
    if Find(lines, tag) < |lines| {
      ServedHit(lines, l, tag, r, order, now);
    } else {
      ServedMiss(lines, l, tag, r, order, now);
    }
  }

  lemma ServeTracks(c: Cache, l: seq<nat>, r: Ref, s: nat, now: nat)
    requires LruCache(c) && SetTracks(c, l, s, now) && now <= Touched(c, r)
    ensures SetTracks(Serve(c, r), if SetOf(c.geo, r.addr) == s then MoveToFront(l, TagOf(c.geo, r.addr)) else l, s, Touched(c, r) + 1)
  {
    hide TagOf, SetOf, Serve, Tracks, Served, MoveToFront, Kept, Find;
    var lines := c.sets[s];
    assert SetOk(c.geo, s, lines) && |lines| == c.geo.assoc;
    var order :| Tracks(lines, Kept(l, c.geo.assoc), order, now);
    ServeSet(c, r);
    ServeOk(c, r);
    if SetOf(c.geo, r.addr) == s {
      ServedTracks(lines, l, TagOf(c.geo, r.addr), r, order, now);
    } else {
      Later(lines, Kept(l, c.geo.assoc), order, now, Touched(c, r) + 1);
      assert Serve(c, r).sets[s] == lines;
    }
  }

  lemma KeptPos(l: seq<nat>, ways: nat, x: nat)
    ensures PosOf(Kept(l, ways), x) < |Kept(l, ways)| ==> PosOf(l, x) == PosOf(Kept(l, ways), x)
    ensures PosOf(Kept(l, ways), x) >= |Kept(l, ways)| ==> PosOf(l, x) >= |Kept(l, ways)|
  {
    var p := PosOf(l, x);
    if p < |Kept(l, ways)| { assert Kept(l, ways)[p] == x; }
  }

  lemma Later(lines: seq<Line>, kept: seq<nat>, order: seq<nat>, now: nat, later: nat)
    requires Tracks(lines, kept, order, now) && now <= later
    ensures Tracks(lines, kept, order, later)
  {
  }

  lemma NothingKept(c: Cache, s: nat)
    requires LruCache(c) && AllInvalid(c) && s < c.geo.sets
    ensures SetTracks(c, [], s, 0)
  {
    NoneValid(c.sets[s]);
    assert Tracks(c.sets[s], [], [], 0);
  }

  /** After any accesses since everything was invalid, each set holds the most recent blocks of its list. */
  lemma {:induction false} LruContents(c: Cache, rs: seq<Ref>, s: nat)
    requires LruCache(c) && AllInvalid(c) && InOrder(c, rs) && s < c.geo.sets
    ensures SetTracks(Replay(c, rs), Recency(c.geo, Addrs(rs), s), s, Clock(c, rs))
  {
    hide TagOf, SetOf, SetOk, Serve, MoveToFront, Kept, Tracks, Touched, SetTracks, AllInvalid;
    if rs == [] {
      NothingKept(c, s);
    } else {
      var n := |rs| - 1;
      LruContents(c, rs[..n], s);
      assert Addrs(rs)[..n] == Addrs(rs[..n]);
      ServeTracks(Replay(c, rs[..n]), Recency(c.geo, Addrs(rs[..n]), s), rs[n], s, Clock(c, rs[..n]));
    }
  }

  /** The next access hits exactly if its block is among the `assoc` most recent of its set. */
  lemma HitIff(c: Cache, rs: seq<Ref>, addr: nat)
    requires LruCache(c) && AllInvalid(c) && InOrder(c, rs)
    ensures Probe(Replay(c, rs), addr)
       <==> TagOf(c.geo, addr) in Kept(Recency(c.geo, Addrs(rs), SetOf(c.geo, addr)), c.geo.assoc)
  {
    hide Replay, Recency, Kept, InOrder, SetTracks, Probe, TagOf, SetOf;
    var s := SetOf(c.geo, addr);
    LruContents(c, rs, s);
    TrackedHits(Replay(c, rs), Recency(c.geo, Addrs(rs), s), addr, Clock(c, rs));
  }

  /** A set that tracks a list holds exactly the blocks of the list that fit. */
  lemma TrackedHits(c: Cache, l: seq<nat>, addr: nat, now: nat)
    requires WellFormed(c) && SetTracks(c, l, SetOf(c.geo, addr), now)
    ensures Probe(c, addr) <==> TagOf(c.geo, addr) in Kept(l, c.geo.assoc)
  {
    hide TagOf, SetOf, Kept;
    var s := SetOf(c.geo, addr);
    assert SetOk(c.geo, s, c.sets[s]);
    var kept := Kept(l, c.geo.assoc);
    var order :| Tracks(c.sets[s], kept, order, now);
    FindKept(c.sets[s], kept, order, now, TagOf(c.geo, addr));
    var p := PosOf(kept, TagOf(c.geo, addr));
    if TagOf(c.geo, addr) in kept {
      var i :| 0 <= i < |kept| && kept[i] == TagOf(c.geo, addr);
      assert p <= i;
    }
  }

  /** Stack property: with the same sets and lines, more ways hit whenever fewer do, whatever the latencies were. */
  lemma MoreWaysHitMore(c: Cache, d: Cache, rs: seq<Ref>, qs: seq<Ref>, addr: nat)
    requires LruCache(c) && AllInvalid(c) && LruCache(d) && AllInvalid(d)
    requires c.geo.lineBytes == d.geo.lineBytes && c.geo.sets == d.geo.sets && c.geo.assoc <= d.geo.assoc
    requires InOrder(c, rs) && InOrder(d, qs) && Addrs(rs) == Addrs(qs)
    requires Probe(Replay(c, rs), addr)
    ensures Probe(Replay(d, qs), addr)
  {
    hide TagOf, LruCache, Replay, Probe, InOrder, Recency, AllInvalid;
    HitIff(c, rs, addr);
    HitIff(d, qs, addr);
    SameMapping(c.geo, d.geo, addr);
    SameRecency(c.geo, d.geo, Addrs(rs), SetOf(c.geo, addr));
    var l := Recency(c.geo, Addrs(rs), SetOf(c.geo, addr));
    assert Kept(l, c.geo.assoc) <= Kept(l, d.geo.assoc);
  }

  lemma SameMapping(g: Geometry, h: Geometry, addr: nat)
    requires GoodGeometry(g) && GoodGeometry(h) && g.lineBytes == h.lineBytes && g.sets == h.sets
    ensures TagOf(g, addr) == TagOf(h, addr) && SetOf(g, addr) == SetOf(h, addr)
  {
  }

  lemma SameRecency(g: Geometry, h: Geometry, addrs: seq<nat>, s: nat)
    requires GoodGeometry(g) && GoodGeometry(h) && g.lineBytes == h.lineBytes && g.sets == h.sets
    ensures Recency(g, addrs, s) == Recency(h, addrs, s)
  {
  }

  // ---------------------------------------------------------------- what a recency list is

  /** Index of the last access to a block; -1 if there is none. */
  function LastUse(g: Geometry, addrs: seq<nat>, tag: nat): (k: int)
    requires GoodGeometry(g)
    ensures -1 <= k < |addrs|
  {
    if addrs == [] then -1
    else if TagOf(g, addrs[|addrs| - 1]) == tag then |addrs| - 1
    else LastUse(g, addrs[..|addrs| - 1], tag)
  }

  lemma LastUseIsLast(g: Geometry, addrs: seq<nat>, tag: nat)
    requires GoodGeometry(g)
    ensures var k := LastUse(g, addrs, tag);
      && (k >= 0 ==> TagOf(g, addrs[k]) == tag)
      && (forall i :: k < i < |addrs| ==> TagOf(g, addrs[i]) != tag)
  {
    hide TagOf;
    if addrs != [] && TagOf(g, addrs[|addrs| - 1]) != tag { LastUseIsLast(g, addrs[..|addrs| - 1], tag); }
  }

  /** l holds the blocks of set s that were accessed, ordered by their last access. */
  ghost predicate ByLastUse(g: Geometry, addrs: seq<nat>, s: nat, l: seq<nat>)
    requires GoodGeometry(g)
  {
    (forall i :: 0 <= i < |l| ==> UsedIn(g, addrs, s, l[i])) && Falling(g, addrs, l) && AllListed(g, addrs, s, l)
  }

  predicate UsedIn(g: Geometry, addrs: seq<nat>, s: nat, tag: nat)
    requires GoodGeometry(g)
  {
    var k := LastUse(g, addrs, tag);
    k >= 0 && SetOf(g, addrs[k]) == s
  }

  ghost predicate Falling(g: Geometry, addrs: seq<nat>, l: seq<nat>)
    requires GoodGeometry(g)
  {
    forall i, j :: 0 <= i < j < |l| ==> LastUse(g, addrs, l[i]) > LastUse(g, addrs, l[j])
  }

  ghost predicate AllListed(g: Geometry, addrs: seq<nat>, s: nat, l: seq<nat>)
    requires GoodGeometry(g)
  {
    forall k :: 0 <= k < |addrs| && SetOf(g, addrs[k]) == s ==> TagOf(g, addrs[k]) in l
  }

  lemma {:induction false} RecencyMeaning(g: Geometry, addrs: seq<nat>, s: nat)
    requires GoodGeometry(g)
    ensures ByLastUse(g, addrs, s, Recency(g, addrs, s))
  {
    hide TagOf, SetOf;
    if addrs != [] {
      var n := |addrs| - 1;
      RecencyMeaning(g, addrs[..n], s);
      var l := Recency(g, addrs[..n], s);
      if SetOf(g, addrs[n]) == s {
        InSetStep(g, addrs, s, l);
      } else {
        OffSetStep(g, addrs, s, l);
      }
    }
  }

  /** Blocks with the same tag are in the same set. */
  lemma TagDecides(g: Geometry, a: nat, b: nat)
    requires GoodGeometry(g) && TagOf(g, a) == TagOf(g, b)
    ensures SetOf(g, a) == SetOf(g, b)
  {
    TagFacts(g, a);
    TagFacts(g, b);
  }

  lemma OffSetStep(g: Geometry, addrs: seq<nat>, s: nat, l: seq<nat>)
    requires GoodGeometry(g) && addrs != [] && SetOf(g, addrs[|addrs| - 1]) != s
    requires ByLastUse(g, addrs[..|addrs| - 1], s, l)
    ensures ByLastUse(g, addrs, s, l)
  {
    hide TagOf, SetOf;
    var n := |addrs| - 1;
    var before := addrs[..n];
    forall i | 0 <= i < |l| ensures LastUse(g, addrs, l[i]) == LastUse(g, before, l[i]) {
      assert UsedIn(g, before, s, l[i]);
      if TagOf(g, addrs[n]) == l[i] {
        LastUseIsLast(g, before, l[i]);
        TagDecides(g, addrs[n], before[LastUse(g, before, l[i])]);
      }
    }
  }

  /** Where an element of the new list comes from. */
  function Origin(l: seq<nat>, x: nat, i: nat): int {
    if i <= PosOf(l, x) then i - 1 else i
  }

  lemma FallingAt(g: Geometry, addrs: seq<nat>, l: seq<nat>, i: nat, j: nat)
    requires GoodGeometry(g) && Falling(g, addrs, l) && i < |l| && j < |l|
    ensures i < j ==> LastUse(g, addrs, l[i]) > LastUse(g, addrs, l[j])
    ensures j < i ==> LastUse(g, addrs, l[i]) < LastUse(g, addrs, l[j])
  {
  }

  /** Elements behind the new front keep their last access. */
  lemma InSetUse(g: Geometry, addrs: seq<nat>, s: nat, l: seq<nat>, i: nat)
    requires GoodGeometry(g) && addrs != [] && ByLastUse(g, addrs[..|addrs| - 1], s, l)
    requires var x := TagOf(g, addrs[|addrs| - 1]); 0 < i < |MoveToFront(l, x)|
    ensures var x := TagOf(g, addrs[|addrs| - 1]);
      var o := Origin(l, x, i);
      && 0 <= o < |l| && MoveToFront(l, x)[i] == l[o]
      && LastUse(g, addrs, l[o]) == LastUse(g, addrs[..|addrs| - 1], l[o])
  {
    hide TagOf, SetOf, Falling, AllListed, UsedIn, MoveToFront;
    var x := TagOf(g, addrs[|addrs| - 1]);
    FrontMap(l, x);
    var o := Origin(l, x, i);
    var p := PosOf(l, x);
    if p < |l| { FallingAt(g, addrs[..|addrs| - 1], l, o, p); }
  }

  lemma NewestUse(g: Geometry, addrs: seq<nat>)
    requires GoodGeometry(g) && addrs != []
    ensures LastUse(g, addrs, TagOf(g, addrs[|addrs| - 1])) == |addrs| - 1
  {
    hide TagOf;
  }

  lemma InSetUsed(g: Geometry, addrs: seq<nat>, s: nat, l: seq<nat>, i: nat)
    requires GoodGeometry(g) && addrs != [] && SetOf(g, addrs[|addrs| - 1]) == s
    requires ByLastUse(g, addrs[..|addrs| - 1], s, l)
    requires i < |MoveToFront(l, TagOf(g, addrs[|addrs| - 1]))|
    ensures UsedIn(g, addrs, s, MoveToFront(l, TagOf(g, addrs[|addrs| - 1]))[i])
  {
    hide TagOf, SetOf, LastUse, PosOf, MoveToFront, AllListed, Falling;
    var x := TagOf(g, addrs[|addrs| - 1]);
    FrontMap(l, x);
    NewestUse(g, addrs);
    if i > 0 {
      InSetUse(g, addrs, s, l, i);
      assert UsedIn(g, addrs[..|addrs| - 1], s, l[Origin(l, x, i)]);
    }
  }

  lemma InSetFalling(g: Geometry, addrs: seq<nat>, s: nat, l: seq<nat>, i: nat, j: nat)
    requires GoodGeometry(g) && addrs != [] && SetOf(g, addrs[|addrs| - 1]) == s
    requires ByLastUse(g, addrs[..|addrs| - 1], s, l)
    requires i < j < |MoveToFront(l, TagOf(g, addrs[|addrs| - 1]))|
    ensures var l' := MoveToFront(l, TagOf(g, addrs[|addrs| - 1]));
      LastUse(g, addrs, l'[i]) > LastUse(g, addrs, l'[j])
  {
    hide TagOf, SetOf, PosOf, MoveToFront, AllListed, Falling, UsedIn;
    var before := addrs[..|addrs| - 1];
    var x := TagOf(g, addrs[|addrs| - 1]);
    FrontMap(l, x);
    InSetUse(g, addrs, s, l, j);
    if i > 0 {
      InSetUse(g, addrs, s, l, i);
      FallingAt(g, before, l, Origin(l, x, i), Origin(l, x, j));
    } else {
      NewestUse(g, addrs);
    }
  }

  lemma InSetStep(g: Geometry, addrs: seq<nat>, s: nat, l: seq<nat>)
    requires GoodGeometry(g) && addrs != [] && SetOf(g, addrs[|addrs| - 1]) == s
    requires ByLastUse(g, addrs[..|addrs| - 1], s, l)
    ensures ByLastUse(g, addrs, s, MoveToFront(l, TagOf(g, addrs[|addrs| - 1])))
  {
    hide TagOf, SetOf, LastUse, PosOf, MoveToFront, UsedIn;
    var n := |addrs| - 1;
    var l' := MoveToFront(l, TagOf(g, addrs[n]));
    forall i | 0 <= i < |l'| ensures UsedIn(g, addrs, s, l'[i]) {
      InSetUsed(g, addrs, s, l, i);
    }
    forall i, j | 0 <= i < j < |l'| ensures LastUse(g, addrs, l'[i]) > LastUse(g, addrs, l'[j]) {
      InSetFalling(g, addrs, s, l, i, j);
    }
    FrontMap(l, TagOf(g, addrs[n]));
    forall k | 0 <= k < |addrs| && SetOf(g, addrs[k]) == s
      ensures TagOf(g, addrs[k]) in MoveToFront(l, TagOf(g, addrs[n]))
    {
      if k < n { assert addrs[..n][k] == addrs[k]; }
    }
  }

  lemma FrontMap(l: seq<nat>, x: nat)
    ensures var l' := MoveToFront(l, x);
      var p := PosOf(l, x);
      && |l'| > 0 && l'[0] == x
      && |l'| == (if p < |l| then |l| else |l| + 1)
      && (forall i :: 0 < i < |l'| ==> l'[i] == l[if i <= p then i - 1 else i])
      && (forall y :: y in l ==> y in l')
  {
    var p := PosOf(l, x);
    forall y | y in l ensures y in MoveToFront(l, x) {
      var j :| 0 <= j < |l| && l[j] == y;
      assert MoveToFront(l, x)[if p >= |l| then j + 1 else if j == p then 0 else if j < p then j + 1 else j] == y;
    }
  }
}

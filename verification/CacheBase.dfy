/** Cache lines, tag lookup, replacement and fill, as CacheBase and ReplPolicy do them. */
module CacheBase {
  import opened Common
  import opened Arith

  datatype Line = Line(valid: bool, dirty: bool, tag: nat, stamp: nat)

  const EMPTY := Line(false, false, 0, 0)

  /** Powers of two in the source, where % and / are masks and shifts. */
  datatype Geometry = Geometry(lineBytes: nat, sets: nat, assoc: nat)

  datatype Policy = Lru | Plru

  /** The three tree bits of a set (one for two ways). */
  datatype Bits = Bits(b0: bool, b1: bool, b2: bool)

  /** `lagSet` is the set of the previous access, consulted for the victim way when `lag` is on. */
  datatype Cache = Cache(
    geo: Geometry,
    policy: Policy,
    lag: bool,
    sets: seq<seq<Line>>,
    bits: seq<Bits>,
    lagSet: Option<nat>)

  predicate GoodGeometry(g: Geometry) {
    g.lineBytes > 0 && g.sets > 0 && g.assoc > 0
  }

  function Init(g: Geometry, policy: Policy, lag: bool): (c: Cache)
    requires GoodGeometry(g)
    ensures WellFormed(c)
  {
    Cache(g, policy, lag, seq(g.sets, _ => seq(g.assoc, _ => EMPTY)), seq(g.sets, _ => Bits(false, false, false)), None)
  }

  function TagOf(g: Geometry, addr: nat): nat
    requires GoodGeometry(g)
  {
    addr - addr % g.lineBytes
  }

  function SetOf(g: Geometry, addr: nat): (s: nat)
    requires GoodGeometry(g)
    ensures s < g.sets
  {
    addr / g.lineBytes % g.sets
  }

  predicate Shaped(c: Cache) {
    && GoodGeometry(c.geo)
    && |c.sets| == c.geo.sets && |c.bits| == c.geo.sets
    && (forall s :: 0 <= s < |c.sets| ==> |c.sets[s]| == c.geo.assoc)
    && (c.lagSet.Some? ==> c.lagSet.value < c.geo.sets)
  }

  /** Valid lines of a set hold different blocks of that set. */
  ghost predicate SetOk(g: Geometry, s: nat, lines: seq<Line>)
    requires GoodGeometry(g)
  {
    && (forall w :: 0 <= w < |lines| && lines[w].valid ==> SetOf(g, lines[w].tag) == s && lines[w].tag % g.lineBytes == 0)
    && (forall v, w :: 0 <= v < w < |lines| && lines[v].valid && lines[w].valid ==> lines[v].tag != lines[w].tag)
  }

  ghost predicate WellFormed(c: Cache) {
    Shaped(c) && forall s :: 0 <= s < |c.sets| ==> SetOk(c.geo, s, c.sets[s])
  }

  // ---------------------------------------------------------------- replacement

  /** The first invalid way; |lines| if there is none. */
  function FirstInvalid(lines: seq<Line>): (w: nat)
    ensures w <= |lines| && (w < |lines| ==> !lines[w].valid)
    ensures forall i :: 0 <= i < w ==> lines[i].valid
  {
    if lines == [] || !lines[0].valid then 0 else 1 + FirstInvalid(lines[1..])
  }

  /** The first way with the smallest stamp. */
  function MinStamp(lines: seq<Line>): (w: nat)
    requires lines != []
    ensures w < |lines|
    ensures forall i :: 0 <= i < |lines| ==> lines[w].stamp <= lines[i].stamp
    ensures forall i :: 0 <= i < w ==> lines[w].stamp < lines[i].stamp
  {
    if |lines| == 1 then 0
    else
      var w := 1 + MinStamp(lines[1..]);
      if lines[0].stamp <= lines[w].stamp then 0 else w
  }

  /** PLRUReplPolicy::victim_way, for 1, 2 or 4 ways. */
  function PlruVictim(assoc: nat, b: Bits): nat {
    if assoc == 2 then (if b.b0 then 0 else 1)
    else if assoc == 4 then (if b.b0 then (if b.b1 then 0 else 1) else if b.b2 then 2 else 3)
    else 0
  }

  /** PLRUReplPolicy::update_bits */
  function PlruTouch(assoc: nat, b: Bits, way: nat): Bits {
    var w0 := way % 2 == 1;
    var w1 := way / 2 % 2 == 1;
    if assoc == 1 then Bits(false, false, false)
    else if assoc == 2 then Bits(w0, false, false)
    else Bits(w1, if w1 then b.b1 else w0, if w1 then w0 else b.b2)
  }

  function PolicyVictim(c: Cache, s: nat): nat
    requires Shaped(c) && s < c.geo.sets
  {
    match c.policy
    case Lru => MinStamp(c.sets[s])
    case Plru => PlruVictim(c.geo.assoc, c.bits[s])
  }

  /** miss_victim_way, reduced to a way of the set. With lag it looks at the set of the previous access. */
  function VictimWay(c: Cache, s: nat): (w: nat)
    requires Shaped(c) && s < c.geo.sets
    ensures w < c.geo.assoc
  {
    var from := if c.lag && c.lagSet.Some? then c.lagSet.value else s;
    var k := FirstInvalid(c.sets[from]);
    (if k < |c.sets[from]| then k else PolicyVictim(c, from)) % c.geo.assoc
  }

  /** onHit and onFill: both touch the line. */
  function Touch(c: Cache, s: nat, w: nat, now: nat): Cache
    requires Shaped(c) && s < c.geo.sets && w < c.geo.assoc
  {
    match c.policy
    case Lru => WithLine(c, s, w, c.sets[s][w].(stamp := now))
    case Plru => c.(bits := c.bits[s := PlruTouch(c.geo.assoc, c.bits[s], w)])
  }

  function WithLine(c: Cache, s: nat, w: nat, l: Line): (c': Cache)
    requires Shaped(c) && s < c.geo.sets && w < c.geo.assoc
    ensures Shaped(c')
  {
    c.(sets := c.sets[s := c.sets[s][w := l]])
  }

  // ---------------------------------------------------------------- lookup and fill

  /** The first valid way that holds the tag; |lines| if there is none. */
  function Find(lines: seq<Line>, tag: nat): (w: nat)
    ensures w <= |lines| && (w < |lines| ==> lines[w].valid && lines[w].tag == tag)
    ensures w == |lines| ==> forall i :: 0 <= i < |lines| ==> !(lines[i].valid && lines[i].tag == tag)
  {
    if lines == [] || (lines[0].valid && lines[0].tag == tag) then 0 else 1 + Find(lines[1..], tag)
  }

  predicate Probe(c: Cache, addr: nat)
    requires Shaped(c)
  {
    var lines := c.sets[SetOf(c.geo, addr)];
    Find(lines, TagOf(c.geo, addr)) < |lines|
  }

  function Remember(c: Cache, s: nat): Cache {
    if c.lag then c.(lagSet := Some(s)) else c
  }

  /** invalidate() leaves the dirty flag set. */
  function Invalidated(l: Line): Line {
    l.(valid := false, tag := 0, stamp := 0)
  }

  /** access: the way hit, or the way emptied for the coming fill. */
  function Access(c: Cache, addr: nat, now: nat): (Cache, nat)
    requires Shaped(c)
  {
    var s := SetOf(c.geo, addr);
    var k := Find(c.sets[s], TagOf(c.geo, addr));
    if k < |c.sets[s]| then (Touch(Remember(c, s), s, k, now), k)
    else
      var w := VictimWay(c, s);
      (Remember(WithLine(c, s, w, Invalidated(c.sets[s][w])), s), w)
  }

  /** handle_fill */
  function Fill(c: Cache, addr: nat, w: nat, now: nat): Cache
    requires Shaped(c) && w < c.geo.assoc
  {
    var s := SetOf(c.geo, addr);
    Touch(WithLine(c, s, w, Line(true, false, TagOf(c.geo, addr), now)), s, w, now)
  }

  function SetDirty(c: Cache, s: nat, w: nat): Cache
    requires Shaped(c) && s < c.geo.sets && w < c.geo.assoc
  {
    WithLine(c, s, w, c.sets[s][w].(dirty := true))
  }

  function InvalidateAll(c: Cache): Cache {
    c.(sets := seq(|c.sets|, s requires 0 <= s < |c.sets| => seq(|c.sets[s]|, w requires 0 <= w < |c.sets[s]| => Invalidated(c.sets[s][w]))))
  }

  // ---------------------------------------------------------------- the invariant

  lemma TagFacts(g: Geometry, addr: nat)
    requires GoodGeometry(g)
    ensures TagOf(g, addr) % g.lineBytes == 0 && SetOf(g, TagOf(g, addr)) == SetOf(g, addr)
  {
    var q, r := addr / g.lineBytes, addr % g.lineBytes;
    assert TagOf(g, addr) == g.lineBytes * q;
    MultipleOf(q, g.lineBytes);
  }

  /** Changing one line keeps the others, so a set stays well formed if the new line fits in. */
  lemma WithLineOk(c: Cache, s: nat, w: nat, l: Line)
    requires WellFormed(c) && s < c.geo.sets && w < c.geo.assoc
    requires l.valid ==> SetOf(c.geo, l.tag) == s && l.tag % c.geo.lineBytes == 0
    requires l.valid ==> forall v :: 0 <= v < c.geo.assoc && v != w && c.sets[s][v].valid ==> c.sets[s][v].tag != l.tag
    ensures WellFormed(WithLine(c, s, w, l))
  {
    var c' := WithLine(c, s, w, l);
    forall t | 0 <= t < |c'.sets| ensures SetOk(c.geo, t, c'.sets[t]) {
      assert SetOk(c.geo, t, c.sets[t]);
    }
  }

  lemma TouchOk(c: Cache, s: nat, w: nat, now: nat)
    requires WellFormed(c) && s < c.geo.sets && w < c.geo.assoc
    ensures WellFormed(Touch(c, s, w, now)) && Touch(c, s, w, now).geo == c.geo
    ensures var c' := Touch(c, s, w, now);
      forall t, v :: 0 <= t < c.geo.sets && 0 <= v < c.geo.assoc ==> c'.sets[t][v] == c.sets[t][v].(stamp := c'.sets[t][v].stamp)
  {
    if c.policy.Lru? {
      assert SetOk(c.geo, s, c.sets[s]);
      WithLineOk(c, s, w, c.sets[s][w].(stamp := now));
    }
  }

  /** A miss empties one way of the set of addr and touches no other line; a hit changes stamps only. */
  lemma AccessOk(c: Cache, addr: nat, now: nat)
    requires WellFormed(c)
    ensures var (c', w) := Access(c, addr, now);
      var s := SetOf(c.geo, addr);
      && WellFormed(c') && c'.geo == c.geo && w < c.geo.assoc
      && (c'.sets[s][w].valid <==> Probe(c, addr))
      && (Probe(c, addr) ==> c'.sets[s][w].tag == TagOf(c.geo, addr))
      && (!Probe(c, addr) ==>
            && w == VictimWay(c, s)
            && c'.sets == c.sets[s := c.sets[s][w := Invalidated(c.sets[s][w])]]
            && !Probe(c', addr))
  {
    var s := SetOf(c.geo, addr);
    var k := Find(c.sets[s], TagOf(c.geo, addr));
    if k < |c.sets[s]| {
      assert WellFormed(Remember(c, s));
      TouchOk(Remember(c, s), s, k, now);
    } else {
      var w := VictimWay(c, s);
      WithLineOk(c, s, w, Invalidated(c.sets[s][w]));
    }
  }

  /** A fill replaces one line. */
  lemma FillSets(c: Cache, addr: nat, w: nat, now: nat)
    requires Shaped(c) && w < c.geo.assoc
    ensures var s := SetOf(c.geo, addr);
      Fill(c, addr, w, now).sets == c.sets[s := c.sets[s][w := Line(true, false, TagOf(c.geo, addr), now)]]
  {
    var s := SetOf(c.geo, addr);
    var lines := c.sets[s][w := Line(true, false, TagOf(c.geo, addr), now)];
    assert lines[w := lines[w].(stamp := now)] == lines;
    assert c.sets[s := lines][s := lines] == c.sets[s := lines];
  }

  lemma FillOk(c: Cache, addr: nat, w: nat, now: nat)
    requires WellFormed(c) && w < c.geo.assoc && !Probe(c, addr)
    ensures var c' := Fill(c, addr, w, now);
      && WellFormed(c') && c'.geo == c.geo
      && c'.sets[SetOf(c.geo, addr)][w] == Line(true, false, TagOf(c.geo, addr), now)
  {
    TagFacts(c.geo, addr);
    var s := SetOf(c.geo, addr);
    var l := Line(true, false, TagOf(c.geo, addr), now);
    WithLineOk(c, s, w, l);
    TouchOk(WithLine(c, s, w, l), s, w, now);
  }
}

/** Building the network from a chip description (src/nmos.cc:88-141, 293-354): the
    construct nodes collect each node's gated transistors and sibling connectors, duplicate
    transistors are skipped, and the wiring is laid out with one pair of leg words per
    transistor, grouped by gate node. */
module NmosBuild {
  import opened NmosNode
  import opened NmosSpec
  import Nmos

  /** transdef: a transistor by its gate node and its two terminal nodes. */
  datatype TransDef = TransDef(gate: nat, c1: nat, c2: nat)

  /** chip_description; transistor_count is the length of transistors. */
  datatype Description = Description(
    nodeCount: nat,
    pullups: seq<bool>,
    transistors: seq<TransDef>,
    power: nat,
    ground: nat)

  /** The two exceptions construction can throw: std::out_of_range("node id") and
      std::logic_error("building nodes"). */
  datatype BuildError = OutOfRange | LogicError

  datatype Result<T> = Ok(value: T) | Err(error: BuildError)

  /** transdef::operator==: the same gate, and the same two terminals in either order. */
  predicate SameTransistor(a: TransDef, b: TransDef) {
    a.gate == b.gate && ((a.c1 == b.c1 && a.c2 == b.c2) || (a.c1 == b.c2 && a.c2 == b.c1))
  }

  /** The equality is an equivalence, so "equal to an earlier one" keeps exactly one
      transistor of each class: the first. */
  lemma SameTransistorEquivalence(a: TransDef, b: TransDef, c: TransDef)
    ensures SameTransistor(a, a)
    ensures SameTransistor(a, b) ==> SameTransistor(b, a)
    ensures SameTransistor(a, b) && SameTransistor(b, c) ==> SameTransistor(a, c)
  {
  }

  /** Transistor i is equal to none before it, so setup_transistors links it. */
  predicate Linked(ts: seq<TransDef>, i: nat)
    requires i < |ts|
  {
    forall j :: 0 <= j < i ==> !SameTransistor(ts[j], ts[i])
  }

  /** The range check of setup_transistors: each id indexes the node_count + 1 construct nodes. */
  predicate Fits(count: nat, t: TransDef) {
    t.gate <= count && t.c1 <= count && t.c2 <= count
  }

  predicate AllFit(d: Description) {
    forall i :: 0 <= i < |d.transistors| ==> Fits(d.nodeCount, d.transistors[i])
  }

  /** construct_node: the pullup flag, the transistors the node gates, and its sibling
      connectors as indices into the description's transistors. */
  datatype ConstructNode = ConstructNode(isPullup: bool, gates: seq<TransDef>, siblings: seq<nat>)

  /** The transistors gated by n among the first k that were linked, in description order. */
  function GatesUpTo(ts: seq<TransDef>, k: nat, n: nat): (gs: seq<TransDef>)
    requires k <= |ts|
    ensures forall i :: 0 <= i < |gs| ==> gs[i].gate == n
    decreases k
  {
    if k == 0 then []
    else GatesUpTo(ts, k - 1, n) + if Linked(ts, k - 1) && ts[k - 1].gate == n then [ts[k - 1]] else []
  }

  /** The connectors of n among the first k transistors: a linked transistor is listed once
      for each of its terminals that is n. */
  function SiblingsUpTo(ts: seq<TransDef>, k: nat, n: nat): (cs: seq<nat>)
    requires k <= |ts|
    ensures forall i :: 0 <= i < |cs| ==> cs[i] < k && Linked(ts, cs[i]) && (ts[cs[i]].c1 == n || ts[cs[i]].c2 == n)
    decreases k
  {
    if k == 0 then []
    else
      var t := ts[k - 1];
      SiblingsUpTo(ts, k - 1, n) +
        if Linked(ts, k - 1) then (if t.c1 == n then [k - 1] else []) + (if t.c2 == n then [k - 1] else []) else []
  }

  /** The construct nodes once the first k transistors were processed. */
  function Constructed(d: Description, k: nat): (cn: seq<ConstructNode>)
    requires |d.pullups| == d.nodeCount && k <= |d.transistors|
    ensures |cn| == d.nodeCount + 1
  {
    seq(d.nodeCount + 1, n requires 0 <= n <= d.nodeCount =>
      ConstructNode(n > 0 && d.pullups[n - 1], GatesUpTo(d.transistors, k, n), SiblingsUpTo(d.transistors, k, n)))
  }

  /** Linking transistor i of the description into construct nodes cn. */
  function Link(cn: seq<ConstructNode>, t: TransDef, i: nat): (r: seq<ConstructNode>)
    requires t.gate < |cn| && t.c1 < |cn| && t.c2 < |cn|
    ensures |r| == |cn|
  {
    var a := cn[t.gate := cn[t.gate].(gates := cn[t.gate].gates + [t])];
    var b := a[t.c1 := a[t.c1].(siblings := a[t.c1].siblings + [i])];
    b[t.c2 := b[t.c2].(siblings := b[t.c2].siblings + [i])]
  }

  /** One more transistor processed: linked if it repeats none before it. */
  lemma ConstructedStep(d: Description, i: nat)
    requires |d.pullups| == d.nodeCount && i < |d.transistors| && Fits(d.nodeCount, d.transistors[i])
    ensures Constructed(d, i + 1) ==
      if Linked(d.transistors, i) then Link(Constructed(d, i), d.transistors[i], i) else Constructed(d, i)
  {
    var c0, c1 := Constructed(d, i), Constructed(d, i + 1);
    var r := if Linked(d.transistors, i) then Link(c0, d.transistors[i], i) else c0;
    forall n | 0 <= n <= d.nodeCount
      ensures c1[n] == r[n]
    {
      NodeStep(d, i, n);
    }
  }

  /** One pass of the setup_transistors loop keeps the construct nodes those of the
      transistors processed so far. */
  lemma SetupStep(d: Description, i: nat, cn: seq<ConstructNode>, cn2: seq<ConstructNode>, i2: nat)
    requires |d.pullups| == d.nodeCount && i < |d.transistors| && Fits(d.nodeCount, d.transistors[i])
    requires cn == Constructed(d, i) && i2 == i + 1
    requires cn2 == if Linked(d.transistors, i) then Link(cn, d.transistors[i], i) else cn
    ensures cn2 == Constructed(d, i2)
  {
    ConstructedStep(d, i);
  }

  /** The same for one construct node n. */
  lemma NodeStep(d: Description, i: nat, n: nat)
    requires |d.pullups| == d.nodeCount && i < |d.transistors| && Fits(d.nodeCount, d.transistors[i])
    requires n <= d.nodeCount
    ensures Constructed(d, i + 1)[n] ==
      (if Linked(d.transistors, i) then Link(Constructed(d, i), d.transistors[i], i) else Constructed(d, i))[n]
  {
    var ts := d.transistors;
    var t := ts[i];
    var c0 := Constructed(d, i);
    var gs, sib := GatesUpTo(ts, i, n), SiblingsUpTo(ts, i, n);
    assert c0[n] == ConstructNode(n > 0 && d.pullups[n - 1], gs, sib);
    if Linked(ts, i) {
      assert SiblingsUpTo(ts, i + 1, n) == sib + ((if t.c1 == n then [i] else []) + (if t.c2 == n then [i] else []));
      var l := Link(c0, t, i);
      assert l[n].gates == if t.gate == n then gs + [t] else gs;
      if t.c1 == n && t.c2 == n {
        assert l[n].siblings == sib + [i] + [i];
      }
    } else {
      assert GatesUpTo(ts, i + 1, n) == gs + [];
      assert SiblingsUpTo(ts, i + 1, n) == sib + [];
    }
  }

  /** create_construct_nodes: the dummy node 0, then node i + 1 with the pullup flag
      pullups[i], all with no transistors yet. */
  method CreateConstructNodes(d: Description) returns (cn: seq<ConstructNode>)
    requires |d.pullups| == d.nodeCount
    ensures |cn| == d.nodeCount + 1 && cn[0] == ConstructNode(false, [], [])
    ensures forall i :: 0 <= i < d.nodeCount ==> cn[i + 1] == ConstructNode(d.pullups[i], [], [])
    ensures cn == Constructed(d, 0)
  {
    cn := [ConstructNode(false, [], [])];
    var index := 0;
    while index < d.nodeCount
      invariant 0 <= index <= d.nodeCount && |cn| == index + 1 && cn[0] == ConstructNode(false, [], [])
      invariant forall i :: 0 <= i < index ==> cn[i + 1] == ConstructNode(d.pullups[i], [], [])
    {
      cn := cn + [ConstructNode(d.pullups[index], [], [])];
      index := index + 1;
    }
  }

  /** setup_transistors: each transistor is range checked, then linked unless it equals an
      earlier one.  The first id out of range throws. */
  method SetupTransistors(d: Description, cn0: seq<ConstructNode>) returns (r: Result<seq<ConstructNode>>)
    requires |d.pullups| == d.nodeCount && cn0 == Constructed(d, 0)
    ensures r.Err? <==> !AllFit(d)
    ensures r.Err? ==> r.error == OutOfRange
    ensures r.Ok? ==> r.value == Constructed(d, |d.transistors|)
  {
    var ts := d.transistors;
    var cn := cn0;
    var i := 0;
    while i < |ts|
      invariant 0 <= i <= |ts| && cn == Constructed(d, i)
      invariant forall j :: 0 <= j < i ==> Fits(d.nodeCount, ts[j])
    {
      var t := ts[i];
      if !(t.gate < |cn| && t.c1 < |cn| && t.c2 < |cn|) {
        assert !Fits(d.nodeCount, ts[i]);
        return Err(OutOfRange);
      }
      ghost var before, i1 := cn, i;
      if Linked(ts, i) {
        cn := cn[t.gate := cn[t.gate].(gates := cn[t.gate].gates + [t])];
        cn := cn[t.c1 := cn[t.c1].(siblings := cn[t.c1].siblings + [i])];
        cn := cn[t.c2 := cn[t.c2].(siblings := cn[t.c2].siblings + [i])];
        assert cn == Link(before, t, i);
      }
      i := i + 1;
      SetupStep(d, i1, before, cn, i);
    }
    r := Ok(cn);
  }

  // ------------------------------------------------------------ layout

  /** The number of the first transistor gated by node n: the gate counts of nodes 1 .. n-1.
      Node 0 is left out of the layout. */
  function Starts(cn: seq<ConstructNode>, n: nat): nat
    requires n <= |cn|
    decreases n
  {
    if n <= 1 then 0 else Starts(cn, n - 1) + |cn[n - 1].gates|
  }

  lemma {:induction false} StartsMono(cn: seq<ConstructNode>, m: nat, n: nat)
    requires m <= n <= |cn|
    ensures Starts(cn, m) <= Starts(cn, n)
    decreases n - m
  {
    if m < n {
      StartsMono(cn, m, n - 1);
    }
  }

  /** node_offsets in terms of transistor numbers, for nodes 0 .. n-1. */
  function StartsUpTo(cn: seq<ConstructNode>, n: nat): (gs: seq<nat>)
    requires n <= |cn| + 1
    ensures |gs| == n
    ensures forall m :: 0 <= m < n ==> gs[m] == Starts(cn, m)
    decreases n
  {
    if n == 0 then [] else StartsUpTo(cn, n - 1) + [Starts(cn, n - 1)]
  }

  /** node_offsets of every node, with one more entry closing the last node. */
  function GateStarts(cn: seq<ConstructNode>): (gs: seq<nat>)
    ensures |gs| == |cn| + 1
    ensures forall n :: 0 <= n <= |cn| ==> gs[n] == Starts(cn, n)
  {
    StartsUpTo(cn, |cn| + 1)
  }

  /** The terminal id a leg word gives back (leg >> 1) once create_nodes stored c << 1 in 16
      bits: ids from 0x8000 on lose their top bit. */
  function LegId(c: nat): (id: nat)
    ensures id < 0x8000
    ensures c < 0x8000 ==> id == c
  {
    (c * 2) % 0x10000 / 2
  }

  /** The terminals the leg words of a run of transistors name: c1, then c2 of each. */
  function LegsOf(gs: seq<TransDef>): (ls: seq<nat>)
    ensures |ls| == 2 * |gs|
    ensures forall i :: 0 <= i < |gs| ==> ls[2 * i] == LegId(gs[i].c1) && ls[2 * i + 1] == LegId(gs[i].c2)
    decreases |gs|
  {
    if gs == [] then [] else LegsOf(gs[..|gs| - 1]) + [LegId(gs[|gs| - 1].c1), LegId(gs[|gs| - 1].c2)]
  }

  /** A terminal id from 0x8000 on does not survive its leg word, so lookup_leg misses its
      own transistor: with c1 = 0x8000 the pair of words reads back (0, 1). */
  lemma WideIdLost()
    ensures var t := TransDef(1, 0x8000, 1);
      LegsOf([t]) == [0, 1] && FindLeg(LegsOf([t]), 0, 1, 0x8000, t, 0) == Err(LogicError)
  {
    var t := TransDef(1, 0x8000, 1);
    assert LegId(0x8000) == 0;
    assert [t][..0] == [];
  }

  /** The leg words of the gates of nodes 1 .. n-1, node after node. */
  function LegsUpTo(cn: seq<ConstructNode>, n: nat): (ls: seq<nat>)
    requires n <= |cn|
    ensures |ls| == 2 * Starts(cn, n)
    decreases n
  {
    if n <= 1 then [] else LegsUpTo(cn, n - 1) + LegsOf(cn[n - 1].gates)
  }

  /** Gate i of node m owns transistor Starts(m) + i, whose two words name its terminals. */
  lemma {:induction false} LegsAt(cn: seq<ConstructNode>, n: nat, m: nat, i: nat)
    requires 1 <= m < n <= |cn| && i < |cn[m].gates|
    ensures 2 * (Starts(cn, m) + i) + 1 < |LegsUpTo(cn, n)|
    ensures LegsUpTo(cn, n)[2 * (Starts(cn, m) + i)] == LegId(cn[m].gates[i].c1)
    ensures LegsUpTo(cn, n)[2 * (Starts(cn, m) + i) + 1] == LegId(cn[m].gates[i].c2)
    decreases n
  {
    var w := 2 * (Starts(cn, m) + i);
    var prefix := LegsUpTo(cn, n - 1);
    assert LegsUpTo(cn, n) == prefix + LegsOf(cn[n - 1].gates);
    if m < n - 1 {
      LegsAt(cn, n - 1, m, i);
      assert LegsUpTo(cn, n)[w] == prefix[w] && LegsUpTo(cn, n)[w + 1] == prefix[w + 1];
    } else {
      assert |prefix| == 2 * Starts(cn, m);
      assert LegsUpTo(cn, n)[w] == LegsOf(cn[m].gates)[2 * i];
      assert LegsUpTo(cn, n)[w + 1] == LegsOf(cn[m].gates)[2 * i + 1];
    }
  }

  /** lookup_leg from the gate node's i-th transistor on: the first transistor whose words
      name c1 and c2 of t in that order gives the word of the terminal that is not id (the
      c2 word when c1 is id); none gives logic_error. */
  function FindLeg(legs: seq<nat>, start: nat, count: nat, id: nat, t: TransDef, i: nat): (r: Result<nat>)
    requires 2 * (start + count) <= |legs| && i <= count
    ensures r.Ok? ==> 2 * start <= r.value < 2 * (start + count)
    ensures r.Err? ==> r.error == LogicError
    decreases count - i
  {
    if i == count then Err(LogicError)
    else if Names(legs, start + i, t) then Ok(if legs[2 * (start + i)] == id then 2 * (start + i) + 1 else 2 * (start + i))
    else FindLeg(legs, start, count, id, t, i + 1)
  }

  /** The two leg words of transistor number k give back c1 and c2 of t, in that order. */
  predicate Names(legs: seq<nat>, k: nat, t: TransDef)
    requires 2 * k + 1 < |legs|
  {
    legs[2 * k] == t.c1 && legs[2 * k + 1] == t.c2
  }

  /** FindLeg stops at the first matching transistor p. */
  lemma {:induction false} FindLegAt(legs: seq<nat>, start: nat, count: nat, id: nat, t: TransDef, i: nat, p: nat)
    requires 2 * (start + count) <= |legs| && i <= p < count
    requires Names(legs, start + p, t)
    requires forall k :: start + i <= k < start + p ==> !Names(legs, k, t)
    ensures FindLeg(legs, start, count, id, t, i) == Ok(if t.c1 == id then 2 * (start + p) + 1 else 2 * (start + p))
    decreases p - i
  {
    if i < p {
      assert !Names(legs, start + i, t);
      FindLegAt(legs, start, count, id, t, i + 1, p);
    }
  }

  /** lookup_leg, as the loop over the gate node's transistors. */
  method LookupLeg(legs: seq<nat>, start: nat, count: nat, id: nat, t: TransDef) returns (r: Result<nat>)
    requires 2 * (start + count) <= |legs|
    ensures r == FindLeg(legs, start, count, id, t, 0)
  {
    var i := 0;
    while i < count
      invariant 0 <= i <= count
      invariant FindLeg(legs, start, count, id, t, i) == FindLeg(legs, start, count, id, t, 0)
    {
      var w := 2 * (start + i);
      if legs[w] == t.c1 && legs[w + 1] == t.c2 {
        if legs[w] == id {
          return Ok(w + 1);
        } else {
          return Ok(w);
        }
      }
      assert !Names(legs, start + i, t);
      i := i + 1;
    }
    r := Err(LogicError);
  }

  /** What the layout relies on: every connector of a node from 1 on names a transistor of
      the description whose gate is a construct node. */
  predicate Laid(cn: seq<ConstructNode>, ts: seq<TransDef>) {
    |cn| >= 1 &&
    forall n, k :: 1 <= n < |cn| && 0 <= k < |cn[n].siblings| ==>
      cn[n].siblings[k] < |ts| && ts[cn[n].siblings[k]].gate < |cn|
  }

  /** The node whose gates node_offsets[g] reaches: node 0 has node 1's offset. */
  function GateNode(g: nat): (m: nat)
    ensures m >= 1 && (g >= 1 ==> m == g)
  {
    if g == 0 then 1 else g
  }

  /** The word of connector idx of node n: looked up among the gates of its transistor's gate node. */
  function ConnectorWord(cn: seq<ConstructNode>, legs: seq<nat>, ts: seq<TransDef>, n: nat, idx: nat): (r: Result<nat>)
    requires |legs| == 2 * Starts(cn, |cn|) && idx < |ts| && ts[idx].gate < |cn| && |cn| >= 2
    ensures r.Ok? ==> r.value < |legs|
    ensures r.Err? ==> r.error == LogicError
  {
    var g := GateNode(ts[idx].gate);
    StartsMono(cn, g + 1, |cn|);
    FindLeg(legs, Starts(cn, g), |cn[g].gates|, n, ts[idx], 0)
  }

  /** The words of the first k connectors of node n; the first failing lookup throws. */
  function WordsUpTo(cn: seq<ConstructNode>, legs: seq<nat>, ts: seq<TransDef>, n: nat, k: nat): (r: Result<seq<nat>>)
    requires Laid(cn, ts) && |legs| == 2 * Starts(cn, |cn|) && 1 <= n < |cn| && k <= |cn[n].siblings|
    ensures r.Ok? ==> |r.value| == k
    ensures r.Err? ==> r.error == LogicError
    decreases k
  {
    if k == 0 then Ok([])
    else
      match WordsUpTo(cn, legs, ts, n, k - 1)
      case Err(e) => Err(e)
      case Ok(ws) =>
        match ConnectorWord(cn, legs, ts, n, cn[n].siblings[k - 1])
        case Err(e) => Err(e)
        case Ok(w) => Ok(ws + [w])
  }

  /** The connector words of nodes 0 .. n-1; node 0 has none. */
  function SiblingLists(cn: seq<ConstructNode>, legs: seq<nat>, ts: seq<TransDef>, n: nat): (r: Result<seq<seq<nat>>>)
    requires Laid(cn, ts) && |legs| == 2 * Starts(cn, |cn|) && n <= |cn|
    ensures r.Ok? ==> |r.value| == n
    ensures r.Err? ==> r.error == LogicError
    decreases n
  {
    if n == 0 then Ok([])
    else if n == 1 then Ok([[]])
    else
      match SiblingLists(cn, legs, ts, n - 1)
      case Err(e) => Err(e)
      case Ok(ls) =>
        match WordsUpTo(cn, legs, ts, n - 1, |cn[n - 1].siblings|)
        case Err(e) => Err(e)
        case Ok(ws) => Ok(ls + [ws])
  }

  /** create_nodes: the wiring laid out from the construct nodes. */
  function Layout(d: Description, cn: seq<ConstructNode>): (r: Result<Topology>)
    requires Laid(cn, d.transistors)
  {
    var legs := LegsUpTo(cn, |cn|);
    match SiblingLists(cn, legs, d.transistors, |cn|)
    case Err(e) => Err(e)
    case Ok(sib) => Ok(Topology(d.nodeCount, d.power, d.ground, GateStarts(cn), legs, sib))
  }

  /** The leg words of one node's gates appended, as the inner loop of create_nodes writes them. */
  method AppendLegs(legs: seq<nat>, gs: seq<TransDef>) returns (r: seq<nat>)
    ensures r == legs + LegsOf(gs)
  {
    r := legs;
    var i := 0;
    while i < |gs|
      invariant 0 <= i <= |gs| && r == legs + LegsOf(gs[..i])
    {
      assert gs[..i + 1][..i] == gs[..i];
      r := r + [LegId(gs[i].c1), LegId(gs[i].c2)];
      i := i + 1;
    }
    assert gs[..i] == gs;
  }

  /** The connector loop of create_nodes for node n. */
  method NodeConnectors(cn: seq<ConstructNode>, legs: seq<nat>, ts: seq<TransDef>, n: nat) returns (r: Result<seq<nat>>)
    requires Laid(cn, ts) && |legs| == 2 * Starts(cn, |cn|) && 1 <= n < |cn|
    ensures r == WordsUpTo(cn, legs, ts, n, |cn[n].siblings|)
  {
    var ws := [];
    var k := 0;
    while k < |cn[n].siblings|
      invariant 0 <= k <= |cn[n].siblings| && WordsUpTo(cn, legs, ts, n, k) == Ok(ws)
    {
      var t := ts[cn[n].siblings[k]];
      var g := GateNode(t.gate);
      StartsMono(cn, g + 1, |cn|);
      var w := LookupLeg(legs, Starts(cn, g), |cn[g].gates|, n, t);
      assert w == ConnectorWord(cn, legs, ts, n, cn[n].siblings[k]);
      if w.Err? {
        WordsErr(cn, legs, ts, n, k + 1, |cn[n].siblings|);
        return Err(w.error);
      }
      ws := ws + [w.value];
      k := k + 1;
    }
    r := Ok(ws);
  }

  lemma {:induction false} WordsErr(cn: seq<ConstructNode>, legs: seq<nat>, ts: seq<TransDef>, n: nat, k: nat, m: nat)
    requires Laid(cn, ts) && |legs| == 2 * Starts(cn, |cn|) && 1 <= n < |cn| && k <= m <= |cn[n].siblings|
    requires WordsUpTo(cn, legs, ts, n, k).Err?
    ensures WordsUpTo(cn, legs, ts, n, m) == Err(LogicError)
    decreases m - k
  {
    if k < m {
      WordsErr(cn, legs, ts, n, k, m - 1);
    }
  }

  lemma {:induction false} SiblingListsErr(cn: seq<ConstructNode>, legs: seq<nat>, ts: seq<TransDef>, n: nat, m: nat)
    requires Laid(cn, ts) && |legs| == 2 * Starts(cn, |cn|) && n <= m <= |cn|
    requires SiblingLists(cn, legs, ts, n).Err?
    ensures SiblingLists(cn, legs, ts, m) == Err(LogicError)
    decreases m - n
  {
    if n < m {
      SiblingListsErr(cn, legs, ts, n, m - 1);
    }
  }

  /** create_nodes, as its three loops: the gate offsets, the leg words, the connectors. */
  method CreateNodes(d: Description, cn: seq<ConstructNode>) returns (r: Result<Topology>)
    requires Laid(cn, d.transistors)
    ensures r == Layout(d, cn)
  {
    var starts := GateOffsets(cn);
    var legs := LayLegs(cn);
    var sib := LayConnectors(cn, legs, d.transistors);
    if sib.Err? {
      return Err(sib.error);
    }
    r := Ok(Topology(d.nodeCount, d.power, d.ground, starts, legs, sib.value));
  }

  /** The offset loop of create_nodes, counting transistors instead of packed words. */
  method GateOffsets(cn: seq<ConstructNode>) returns (starts: seq<nat>)
    requires |cn| >= 1
    ensures starts == GateStarts(cn)
  {
    starts := [0];
    var total := 0;
    var n := 1;
    while n <= |cn|
      invariant 1 <= n <= |cn| + 1 && total == Starts(cn, n - 1) && starts == StartsUpTo(cn, n)
    {
      if n > 1 {
        total := total + |cn[n - 1].gates|;
      }
      starts := starts + [total];
      n := n + 1;
    }
  }

  /** The leg loop of create_nodes. */
  method LayLegs(cn: seq<ConstructNode>) returns (legs: seq<nat>)
    requires |cn| >= 1
    ensures legs == LegsUpTo(cn, |cn|)
  {
    legs := [];
    var n := 1;
    while n < |cn|
      invariant 1 <= n <= |cn| && legs == LegsUpTo(cn, n)
    {
      legs := AppendLegs(legs, cn[n].gates);
      n := n + 1;
    }
  }

  /** The connector loop of create_nodes; node 0 gets no connectors. */
  method LayConnectors(cn: seq<ConstructNode>, legs: seq<nat>, ts: seq<TransDef>) returns (r: Result<seq<seq<nat>>>)
    requires Laid(cn, ts) && |legs| == 2 * Starts(cn, |cn|)
    ensures r == SiblingLists(cn, legs, ts, |cn|)
  {
    var sib := [[]];
    var n := 1;
    while n < |cn|
      invariant 1 <= n <= |cn| && SiblingLists(cn, legs, ts, n) == Ok(sib)
    {
      var ws := NodeConnectors(cn, legs, ts, n);
      if ws.Err? {
        SiblingListsErr(cn, legs, ts, n + 1, |cn|);
        return Err(ws.error);
      }
      sib := sib + [ws.value];
      n := n + 1;
    }
    r := Ok(sib);
  }

  // ------------------------------------------------------------ what the layout guarantees

  /** A transistor the engine can use: its gate and terminals are real nodes, not the dummy. */
  predicate Proper(count: nat, t: TransDef) {
    1 <= t.gate <= count && 1 <= t.c1 <= count && 1 <= t.c2 <= count
  }

  /** The descriptions the layout is proved for: one pullup flag per node, fewer than 0x8000
      nodes (so that c << 1 fits a 16-bit leg word), both sentinels real nodes, and no
      transistor naming node 0. */
  predicate WellFormed(d: Description) {
    && |d.pullups| == d.nodeCount
    && d.nodeCount < 0x8000
    && 1 <= d.power <= d.nodeCount && 1 <= d.ground <= d.nodeCount
    && forall i :: 0 <= i < |d.transistors| ==> Proper(d.nodeCount, d.transistors[i])
  }

  /** Gate i of node g is some transistor of the description before k. */
  lemma {:induction false} GateOrigin(ts: seq<TransDef>, k: nat, g: nat, i: nat) returns (j: nat)
    requires k <= |ts| && i < |GatesUpTo(ts, k, g)|
    ensures j < k && Linked(ts, j) && GatesUpTo(ts, k, g)[i] == ts[j]
    decreases k
  {
    var prev := GatesUpTo(ts, k - 1, g);
    if i < |prev| {
      j := GateOrigin(ts, k - 1, g, i);
    } else {
      j := k - 1;
    }
  }

  /** No two gates of a node are the same transistor: the duplicates were skipped. */
  lemma {:induction false} GatesDistinct(ts: seq<TransDef>, k: nat, g: nat)
    requires k <= |ts|
    ensures forall i, j :: 0 <= i < j < |GatesUpTo(ts, k, g)| ==> !SameTransistor(GatesUpTo(ts, k, g)[i], GatesUpTo(ts, k, g)[j])
    decreases k
  {
    if k > 0 {
      GatesDistinct(ts, k - 1, g);
      var prev := GatesUpTo(ts, k - 1, g);
      var gs := GatesUpTo(ts, k, g);
      if |gs| > |prev| {
        forall i | 0 <= i < |prev|
          ensures !SameTransistor(gs[i], gs[|prev|])
        {
          var j := GateOrigin(ts, k - 1, g, i);
        }
      }
    }
  }

  /** A linked transistor is among the gates of its gate node. */
  lemma {:induction false} GateFound(ts: seq<TransDef>, k: nat, idx: nat) returns (p: nat)
    requires idx < k <= |ts| && Linked(ts, idx)
    ensures p < |GatesUpTo(ts, k, ts[idx].gate)| && GatesUpTo(ts, k, ts[idx].gate)[p] == ts[idx]
    decreases k
  {
    if idx < k - 1 {
      p := GateFound(ts, k - 1, idx);
    } else {
      p := |GatesUpTo(ts, k - 1, ts[idx].gate)|;
    }
  }

  /** The construct nodes of a well-formed description are laid out as Laid says. */
  lemma ConstructedLaid(d: Description)
    requires WellFormed(d)
    ensures Laid(Constructed(d, |d.transistors|), d.transistors)
  {
  }

  /** The far terminal of transistor t seen from node n. */
  function Other(t: TransDef, n: nat): nat {
    if t.c1 == n then t.c2 else t.c1
  }

  /** Connector idx of node n is found: among the gates of t's gate node g it lands on the
      pair of words of transistor number k, the one of t, and gives the word of its c2 when
      c1 is n, the word of its c1 otherwise. */
  lemma ConnectorFound(cn: seq<ConstructNode>, ts: seq<TransDef>, n: nat, idx: nat) returns (k: nat)
    requires 1 <= n < |cn| && idx < |ts| && Linked(ts, idx) && 1 <= ts[idx].gate < |cn|
    requires cn[ts[idx].gate].gates == GatesUpTo(ts, |ts|, ts[idx].gate)
    requires forall j :: 0 <= j < |ts| ==> ts[j].c1 < 0x8000 && ts[j].c2 < 0x8000
    ensures var legs := LegsUpTo(cn, |cn|);
      var t := ts[idx];
      && Starts(cn, t.gate) <= k < Starts(cn, t.gate) + |cn[t.gate].gates|
      && 2 * k + 1 < |legs| && Names(legs, k, t)
      && ConnectorWord(cn, legs, ts, n, idx) == Ok(2 * k + if t.c1 == n then 1 else 0)
  {
    var legs := LegsUpTo(cn, |cn|);
    var t := ts[idx];
    var g := t.gate;
    var gs := cn[g].gates;
    var p := GateFound(ts, |ts|, idx);
    var start := Starts(cn, g);
    StartsMono(cn, g + 1, |cn|);
    LegsAt(cn, |cn|, g, p);
    forall q | start <= q < start + p
      ensures !Names(legs, q, t)
    {
      NamedOnce(cn, ts, g, q - start, p, t);
    }
    FindLegAt(legs, start, |gs|, n, t, 0, p);
    k := start + p;
  }

  /** The pair of words of an earlier gate of the same node does not name t: the gates of a
      node are pairwise unequal transistors. */
  lemma NamedOnce(cn: seq<ConstructNode>, ts: seq<TransDef>, g: nat, i: nat, p: nat, t: TransDef)
    requires 1 <= g < |cn| && i < p < |cn[g].gates| && cn[g].gates[p] == t
    requires cn[g].gates == GatesUpTo(ts, |ts|, g)
    requires forall j :: 0 <= j < |ts| ==> ts[j].c1 < 0x8000 && ts[j].c2 < 0x8000
    ensures 2 * (Starts(cn, g) + i) + 1 < |LegsUpTo(cn, |cn|)|
    ensures !Names(LegsUpTo(cn, |cn|), Starts(cn, g) + i, t)
  {
    var legs := LegsUpTo(cn, |cn|);
    var q := Starts(cn, g) + i;
    var gs := cn[g].gates;
    LegsAt(cn, |cn|, g, i);
    var o := GateOrigin(ts, |ts|, g, i);
    var u := gs[i];
    assert u == ts[o] && u.gate == g;
    assert legs[2 * q] == u.c1 && legs[2 * q + 1] == u.c2;
    GatesDistinct(ts, |ts|, g);
    assert !SameTransistor(u, gs[p]);
  }

  /** Every connector lookup succeeds. */
  predicate Connects(cn: seq<ConstructNode>, legs: seq<nat>, ts: seq<TransDef>)
    requires Laid(cn, ts) && |legs| == 2 * Starts(cn, |cn|)
  {
    forall m, j :: 1 <= m < |cn| && 0 <= j < |cn[m].siblings| ==>
      ConnectorWord(cn, legs, ts, m, cn[m].siblings[j]).Ok?
  }

  lemma {:induction false} WordsOk(cn: seq<ConstructNode>, legs: seq<nat>, ts: seq<TransDef>, n: nat, k: nat)
    requires Laid(cn, ts) && |legs| == 2 * Starts(cn, |cn|) && 1 <= n < |cn| && k <= |cn[n].siblings|
    requires Connects(cn, legs, ts)
    ensures WordsUpTo(cn, legs, ts, n, k).Ok?
    decreases k
  {
    if k > 0 {
      WordsOk(cn, legs, ts, n, k - 1);
      assert ConnectorWord(cn, legs, ts, n, cn[n].siblings[k - 1]).Ok?;
    }
  }

  /** Word j of node n's connectors is the word of its connector j. */
  lemma {:induction false} WordAt(cn: seq<ConstructNode>, legs: seq<nat>, ts: seq<TransDef>, n: nat, k: nat, j: nat)
    requires Laid(cn, ts) && |legs| == 2 * Starts(cn, |cn|) && 1 <= n < |cn| && j < k <= |cn[n].siblings|
    requires WordsUpTo(cn, legs, ts, n, k).Ok?
    ensures ConnectorWord(cn, legs, ts, n, cn[n].siblings[j]) == Ok(WordsUpTo(cn, legs, ts, n, k).value[j])
    decreases k
  {
    if j < k - 1 {
      WordAt(cn, legs, ts, n, k - 1, j);
    }
  }

  lemma {:induction false} ListsOk(cn: seq<ConstructNode>, legs: seq<nat>, ts: seq<TransDef>, n: nat)
    requires Laid(cn, ts) && |legs| == 2 * Starts(cn, |cn|) && n <= |cn|
    requires Connects(cn, legs, ts)
    ensures SiblingLists(cn, legs, ts, n).Ok?
    decreases n
  {
    if n > 1 {
      ListsOk(cn, legs, ts, n - 1);
      WordsOk(cn, legs, ts, n - 1, |cn[n - 1].siblings|);
    }
  }

  /** The connector list of node m is node m's connector words; node 0 has none. */
  lemma {:induction false} ListAt(cn: seq<ConstructNode>, legs: seq<nat>, ts: seq<TransDef>, n: nat, m: nat)
    requires Laid(cn, ts) && |legs| == 2 * Starts(cn, |cn|) && m < n <= |cn|
    requires SiblingLists(cn, legs, ts, n).Ok?
    ensures m == 0 ==> SiblingLists(cn, legs, ts, n).value[0] == []
    ensures m >= 1 ==> WordsUpTo(cn, legs, ts, m, |cn[m].siblings|) == Ok(SiblingLists(cn, legs, ts, n).value[m])
    decreases n
  {
    if m < n - 1 {
      ListAt(cn, legs, ts, n - 1, m);
    }
  }

  /** The gates of every construct node are proper transistors. */
  predicate GatesProper(cn: seq<ConstructNode>, count: nat) {
    forall m, i :: 0 <= m < |cn| && 0 <= i < |cn[m].gates| ==> Proper(count, cn[m].gates[i])
  }

  lemma ConstructedProper(d: Description)
    requires WellFormed(d)
    ensures GatesProper(Constructed(d, |d.transistors|), d.nodeCount)
  {
    var ts := d.transistors;
    var cn := Constructed(d, |ts|);
    forall m, i | 0 <= m < |cn| && 0 <= i < |cn[m].gates|
      ensures Proper(d.nodeCount, cn[m].gates[i])
    {
      var j := GateOrigin(ts, |ts|, m, i);
    }
  }

  lemma LegsOfRange(gs: seq<TransDef>, count: nat)
    requires count < 0x8000
    requires forall i :: 0 <= i < |gs| ==> Proper(count, gs[i])
    ensures forall e :: 0 <= e < |LegsOf(gs)| ==> 1 <= LegsOf(gs)[e] <= count
  {
    forall e | 0 <= e < |LegsOf(gs)|
      ensures 1 <= LegsOf(gs)[e] <= count
    {
      var i := e / 2;
      if e % 2 == 0 {
        assert e == 2 * i;
      } else {
        assert e == 2 * i + 1;
      }
    }
  }

  /** Every leg word names a real node. */
  lemma {:induction false} LegsRange(cn: seq<ConstructNode>, count: nat, n: nat)
    requires n <= |cn| && count < 0x8000 && GatesProper(cn, count)
    ensures forall e :: 0 <= e < |LegsUpTo(cn, n)| ==> 1 <= LegsUpTo(cn, n)[e] <= count
    decreases n
  {
    if n > 1 {
      LegsRange(cn, count, n - 1);
      LegsOfRange(cn[n - 1].gates, count);
    }
  }

  /** Every connector lookup of a well-formed description succeeds. */
  lemma ConstructedConnects(d: Description)
    requires WellFormed(d)
    ensures var cn := Constructed(d, |d.transistors|);
      Laid(cn, d.transistors) && Connects(cn, LegsUpTo(cn, |cn|), d.transistors)
  {
    var ts := d.transistors;
    var cn := Constructed(d, |ts|);
    ConstructedLaid(d);
    forall m, j | 1 <= m < |cn| && 0 <= j < |cn[m].siblings|
      ensures ConnectorWord(cn, LegsUpTo(cn, |cn|), ts, m, cn[m].siblings[j]).Ok?
    {
      var idx := cn[m].siblings[j];
      assert cn[ts[idx].gate].gates == GatesUpTo(ts, |ts|, ts[idx].gate);
      var k := ConnectorFound(cn, ts, m, idx);
    }
  }

  /** Transistor number k has the leg words of t: its c1, then its c2. */
  predicate GateLegs(T: Topology, k: nat, t: TransDef) {
    2 * k + 1 < |T.legTerm| && T.legTerm[2 * k] == t.c1 && T.legTerm[2 * k + 1] == t.c2
  }

  /** Connector word w of node n leads through transistor t: it is one of t's leg words, in
      the gate range of t's gate node, and the word of the far terminal (c2's when c1 is n). */
  predicate Leads(T: Topology, n: nat, w: nat, t: TransDef) {
    var k := w / 2;
    && w == 2 * k + (if t.c1 == n then 1 else 0)
    && t.gate + 1 < |T.gateStart| && T.gateStart[t.gate] <= k < T.gateStart[t.gate + 1]
    && GateLegs(T, k, t)
  }

  /** The word a connector leads to names the far terminal. */
  lemma LeadsOther(T: Topology, n: nat, w: nat, t: TransDef)
    requires Leads(T, n, w, t)
    ensures w < |T.legTerm| && T.legTerm[w] == Other(t, n)
  {
  }

  /** The wiring of the description: the gate range of node g holds the transistors g gates,
      in description order without duplicates, and the connectors of node n lead through the
      transistors n is a terminal of, once for each terminal that is n. */
  predicate Wired(d: Description, T: Topology)
    requires TopoOk(T) && T.nodeCount == d.nodeCount
  {
    var ts := d.transistors;
    && (forall g :: 1 <= g <= T.nodeCount ==>
         T.gateStart[g + 1] == T.gateStart[g] + |GatesUpTo(ts, |ts|, g)|)
    && (forall g, i :: 1 <= g <= T.nodeCount && 0 <= i < |GatesUpTo(ts, |ts|, g)| ==>
         GateLegs(T, T.gateStart[g] + i, GatesUpTo(ts, |ts|, g)[i]))
    && (forall n :: 1 <= n <= T.nodeCount ==> |T.siblings[n]| == |SiblingsUpTo(ts, |ts|, n)|)
    && (forall n, k :: 1 <= n <= T.nodeCount && 0 <= k < |T.siblings[n]| && k < |SiblingsUpTo(ts, |ts|, n)| ==>
         Leads(T, n, T.siblings[n][k], ts[SiblingsUpTo(ts, |ts|, n)[k]]))
  }

  /** create_nodes succeeds on a well-formed description, and the network it lays out is well formed. */
  lemma LayoutOk(d: Description)
    requires WellFormed(d)
    ensures var cn := Constructed(d, |d.transistors|);
      && Laid(cn, d.transistors)
      && Layout(d, cn).Ok?
      && TopoOk(Layout(d, cn).value)
      && Layout(d, cn).value.nodeCount == d.nodeCount
  {
    var ts := d.transistors;
    var cn := Constructed(d, |ts|);
    var legs := LegsUpTo(cn, |cn|);
    ConstructedConnects(d);
    ListsOk(cn, legs, ts, |cn|);
    var T := Layout(d, cn).value;
    assert T.gateStart == GateStarts(cn) && T.legTerm == legs;
    forall i, j | 0 <= i <= j < |T.gateStart|
      ensures T.gateStart[i] <= T.gateStart[j]
    {
      StartsMono(cn, i, j);
    }
    ConstructedProper(d);
    LegsRange(cn, d.nodeCount, |cn|);
    forall n, k | 0 <= n < |T.siblings| && 0 <= k < |T.siblings[n]|
      ensures T.siblings[n][k] < |T.legTerm|
    {
      ListAt(cn, legs, ts, |cn|, n);
      if n >= 1 {
        WordAt(cn, legs, ts, n, |cn[n].siblings|, k);
      }
    }
  }

  /** The construct nodes hold what setup_transistors collected from all the transistors. */
  predicate Collected(cn: seq<ConstructNode>, ts: seq<TransDef>) {
    forall g :: 0 <= g < |cn| ==> cn[g].gates == GatesUpTo(ts, |ts|, g) && cn[g].siblings == SiblingsUpTo(ts, |ts|, g)
  }

  lemma ConstructedCollected(d: Description)
    requires |d.pullups| == d.nodeCount
    ensures Collected(Constructed(d, |d.transistors|), d.transistors)
  {
  }

  /** Gate i of node g owns the leg words of transistor number gateStart[g] + i. */
  lemma GateLegsAt(d: Description, cn: seq<ConstructNode>, T: Topology, g: nat, i: nat)
    requires WellFormed(d) && |cn| == d.nodeCount + 1 && Collected(cn, d.transistors) && GatesProper(cn, d.nodeCount)
    requires T.gateStart == GateStarts(cn) && T.legTerm == LegsUpTo(cn, |cn|)
    requires 1 <= g <= d.nodeCount && i < |GatesUpTo(d.transistors, |d.transistors|, g)|
    ensures GateLegs(T, T.gateStart[g] + i, GatesUpTo(d.transistors, |d.transistors|, g)[i])
  {
    var ts := d.transistors;
    assert cn[g].gates == GatesUpTo(ts, |ts|, g);
    var t := cn[g].gates[i];
    assert Proper(d.nodeCount, t);
    GateLegsOf(cn, T, d.nodeCount, g, i, t);
  }

  /** The same, in terms of the construct nodes alone. */
  lemma GateLegsOf(cn: seq<ConstructNode>, T: Topology, count: nat, g: nat, i: nat, t: TransDef)
    requires count < 0x8000 && 1 <= g < |cn| && i < |cn[g].gates| && t == cn[g].gates[i]
    requires t.c1 <= count && t.c2 <= count
    requires g < |T.gateStart| && T.gateStart[g] == Starts(cn, g) && T.legTerm == LegsUpTo(cn, |cn|)
    ensures GateLegs(T, T.gateStart[g] + i, t)
  {
    LegsAt(cn, |cn|, g, i);
  }

  /** Connector k of node n leads through the transistor it was collected from. */
  lemma LeadAt(d: Description, cn: seq<ConstructNode>, T: Topology, n: nat, k: nat)
    requires WellFormed(d) && |cn| == d.nodeCount + 1 && Collected(cn, d.transistors) && Laid(cn, d.transistors)
    requires T.gateStart == GateStarts(cn) && T.legTerm == LegsUpTo(cn, |cn|)
    requires SiblingLists(cn, T.legTerm, d.transistors, |cn|) == Ok(T.siblings)
    requires 1 <= n <= d.nodeCount && k < |T.siblings[n]|
    ensures k < |cn[n].siblings| && Leads(T, n, T.siblings[n][k], d.transistors[cn[n].siblings[k]])
  {
    var ts := d.transistors;
    var legs := T.legTerm;
    ListAt(cn, legs, ts, |cn|, n);
    var ws := WordsUpTo(cn, legs, ts, n, |cn[n].siblings|);
    assert ws == Ok(T.siblings[n]);
    WordAt(cn, legs, ts, n, |cn[n].siblings|, k);
    var idx := cn[n].siblings[k];
    var t := ts[idx];
    assert cn[n].siblings == SiblingsUpTo(ts, |ts|, n);
    assert Linked(ts, idx);
    assert 1 <= t.gate <= d.nodeCount;
    assert cn[t.gate].gates == GatesUpTo(ts, |ts|, t.gate);
    var j := ConnectorFound(cn, ts, n, idx);
    var w := T.siblings[n][k];
    assert ConnectorWord(cn, legs, ts, n, idx) == Ok(w);
    LeadsFrom(cn, T, n, w, j, t);
  }

  /** The word found for a connector leads through its transistor. */
  lemma LeadsFrom(cn: seq<ConstructNode>, T: Topology, n: nat, w: nat, j: nat, t: TransDef)
    requires 1 <= t.gate < |cn| && T.gateStart == GateStarts(cn) && T.legTerm == LegsUpTo(cn, |cn|)
    requires Starts(cn, t.gate) <= j < Starts(cn, t.gate) + |cn[t.gate].gates|
    requires 2 * j + 1 < |T.legTerm| && Names(T.legTerm, j, t)
    requires w == 2 * j + if t.c1 == n then 1 else 0
    ensures Leads(T, n, w, t)
  {
    assert w / 2 == j;
    assert T.gateStart[t.gate + 1] == Starts(cn, t.gate + 1);
  }

  /** The network create_nodes lays out for a well-formed description is wired as the
      description says. */
  lemma LayoutWired(d: Description)
    requires WellFormed(d)
    ensures var cn := Constructed(d, |d.transistors|);
      && Laid(cn, d.transistors) && Layout(d, cn).Ok? && TopoOk(Layout(d, cn).value)
      && Layout(d, cn).value.nodeCount == d.nodeCount
      && Wired(d, Layout(d, cn).value)
  {
    LayoutOk(d);
    var cn := Constructed(d, |d.transistors|);
    var T := Layout(d, cn).value;
    ConstructedProper(d);
    ConstructedCollected(d);
    assert T.gateStart == GateStarts(cn) && T.legTerm == LegsUpTo(cn, |cn|);
    assert SiblingLists(cn, T.legTerm, d.transistors, |cn|) == Ok(T.siblings);
    WiredFrom(d, cn, T);
  }

  lemma WiredFrom(d: Description, cn: seq<ConstructNode>, T: Topology)
    requires WellFormed(d) && |cn| == d.nodeCount + 1 && Collected(cn, d.transistors) && Laid(cn, d.transistors)
    requires GatesProper(cn, d.nodeCount) && TopoOk(T) && T.nodeCount == d.nodeCount
    requires T.gateStart == GateStarts(cn) && T.legTerm == LegsUpTo(cn, |cn|)
    requires SiblingLists(cn, T.legTerm, d.transistors, |cn|) == Ok(T.siblings)
    ensures Wired(d, T)
  {
    var ts := d.transistors;
    forall g | 1 <= g <= T.nodeCount
      ensures T.gateStart[g + 1] == T.gateStart[g] + |GatesUpTo(ts, |ts|, g)|
    {
      assert T.gateStart[g + 1] == Starts(cn, g + 1) == Starts(cn, g) + |cn[g].gates|;
    }
    forall g, i | 1 <= g <= T.nodeCount && 0 <= i < |GatesUpTo(ts, |ts|, g)|
      ensures GateLegs(T, T.gateStart[g] + i, GatesUpTo(ts, |ts|, g)[i])
    {
      GateLegsAt(d, cn, T, g, i);
    }
    forall n | 1 <= n <= T.nodeCount
      ensures |T.siblings[n]| == |SiblingsUpTo(ts, |ts|, n)|
    {
      ListAt(cn, T.legTerm, ts, |cn|, n);
    }
    forall n, k | 1 <= n <= T.nodeCount && 0 <= k < |T.siblings[n]| && k < |SiblingsUpTo(ts, |ts|, n)|
      ensures Leads(T, n, T.siblings[n][k], ts[SiblingsUpTo(ts, |ts|, n)[k]])
    {
      LeadAt(d, cn, T, n, k);
    }
  }

  // ------------------------------------------------------------ the constructor

  /** What the nmos constructor assumes of its description without checking it: one pullup
      flag per node, fewer than 0x8000 nodes, power and ground real nodes, and no transistor
      naming node 0 (whose flag word is node 1's). */
  predicate Acceptable(d: Description) {
    && |d.pullups| == d.nodeCount
    && d.nodeCount < 0x8000
    && 1 <= d.power <= d.nodeCount && 1 <= d.ground <= d.nodeCount
    && forall i :: 0 <= i < |d.transistors| ==>
         d.transistors[i].gate != 0 && d.transistors[i].c1 != 0 && d.transistors[i].c2 != 0
  }

  /** An acceptable description whose ids are in range is exactly a well-formed one. */
  lemma AcceptableFits(d: Description)
    ensures WellFormed(d) <==> Acceptable(d) && AllFit(d)
  {
  }

  /** nmos::nmos: the construct nodes, the transistors, the layout, then the engine's own
      state.  The out_of_range of an id past node_count is the only exception it throws:
      the logic_error of lookup_leg never happens for an acceptable description. */
  method Construct(d: Description) returns (r: Result<Nmos.Engine>)
    requires Acceptable(d)
    ensures r.Err? <==> !AllFit(d)
    ensures r.Err? ==> r.error == OutOfRange
    ensures r.Ok? ==>
      && WellFormed(d)
      && (var cn := Constructed(d, |d.transistors|);
          Laid(cn, d.transistors) && Layout(d, cn) == Ok(r.value.topo))
      && TopoOk(r.value.topo) && r.value.topo.nodeCount == d.nodeCount
      && Wired(d, r.value.topo)
      && fresh(r.value) && r.value.Valid()
      && r.value.Abs() == Initial(r.value.topo, d.pullups)
      && r.value.transistorTotal == |d.transistors| % 0x10000
  {
    var cn := CreateConstructNodes(d);
    var st := SetupTransistors(d, cn);
    if st.Err? {
      return Err(st.error);
    }
    LayoutWired(d);
    var lay := CreateNodes(d, st.value);
    assert lay.Ok?;
    var e := new Nmos.Engine(lay.value, d.pullups, |d.transistors|);
    r := Ok(e);
  }
}

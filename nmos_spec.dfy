/** The state of a switch-level network as values, and the reference semantics of every
    engine step as functions on those values (src/nmos.cc).  The class Nmos.Engine keeps
    the same state in arrays and is proved to follow these functions step by step. */
module NmosSpec {
  import opened NmosNode
  import opened ChangeOrder
  import opened Bits

  /** The immutable wiring of a built network.  Transistors are numbered in the order their
      gate nodes lay them out; transistor t owns the two leg words 2t (its c1 terminal) and
      2t+1 (its c2 terminal).  Node n gates the transistors gateStart[n] .. gateStart[n+1]-1,
      and siblings[n] lists, for every transistor that has n as a terminal, the leg word of
      the OTHER terminal: the id it leads to is legTerm of that word. */
  datatype Topology = Topology(
    nodeCount: nat,
    power: nat,
    ground: nat,
    gateStart: seq<nat>,
    legTerm: seq<nat>,
    siblings: seq<seq<nat>>)

  /** The ring buffer of changed_queue holds node_count * 32 slots. */
  function Capacity(T: Topology): nat {
    T.nodeCount * 32
  }

  predicate TopoOk(T: Topology) {
    && 1 <= T.power <= T.nodeCount
    && 1 <= T.ground <= T.nodeCount
    && |T.gateStart| == T.nodeCount + 2
    && T.gateStart[0] == 0 && T.gateStart[1] == 0
    && (forall i, j :: 0 <= i <= j < |T.gateStart| ==> T.gateStart[i] <= T.gateStart[j])
    && |T.legTerm| == 2 * T.gateStart[T.nodeCount + 1]
    && (forall e :: 0 <= e < |T.legTerm| ==> 1 <= T.legTerm[e] <= T.nodeCount)
    && |T.siblings| == T.nodeCount + 1
    && (forall n, k :: 0 <= n < |T.siblings| && 0 <= k < |T.siblings[n]| ==> T.siblings[n][k] < |T.legTerm|)
  }

  /** A node that can join a group: a real node that is neither of the two sentinels. */
  predicate Ordinary(T: Topology, n: nat) {
    1 <= n <= T.nodeCount && n != T.power && n != T.ground
  }

  predicate Distinct(s: seq<nat>) {
    forall i, j :: 0 <= i < j < |s| ==> s[i] != s[j]
  }

  predicate AllIds(T: Topology, ids: seq<nat>) {
    forall k :: 0 <= k < |ids| ==> 1 <= ids[k] <= T.nodeCount
  }

  /** The mutable part of the network: the flag word of every node (index 0 is the unused
      dummy), the on-bit of every leg word, and the pending ids of the change queue. */
  datatype State = State(nodes: seq<Flags>, on: seq<bool>, queue: seq<nat>)

  predicate Shaped(T: Topology, s: State) {
    && TopoOk(T)
    && |s.nodes| == T.nodeCount + 1
    && |s.on| == |T.legTerm|
    && |s.queue| < Capacity(T)
    && AllIds(T, s.queue)
  }

  // ---------------------------------------------------------------- change queue

  /** changed_push: a node already marked in_changelist is left alone; otherwise the id goes
      in at the feeding end and the node is marked.  The ring is not checked for overflow: the
      push that would fill its last free slot makes feeding catch up with eating, and the
      queue then reads as empty. */
  function Push(T: Topology, s: State, id: nat): (r: State)
    requires Shaped(T, s) && 1 <= id <= T.nodeCount
    ensures Shaped(T, r)
    ensures r.on == s.on
  {
    if s.nodes[id].inChangelist then s
    else
      State(s.nodes[id := s.nodes[id].(inChangelist := true)], s.on,
            if |s.queue| + 1 < Capacity(T) then s.queue + [id] else [])
  }

  /** Pushes ids one after the other, first to last. */
  function PushAll(T: Topology, s: State, ids: seq<nat>): (r: State)
    requires Shaped(T, s) && AllIds(T, ids)
    ensures Shaped(T, r)
    ensures r.on == s.on
    decreases |ids|
  {
    if ids == [] then s else PushAll(T, Push(T, s, ids[0]), ids[1..])
  }

  // ---------------------------------------------------------------- node helpers

  /** get_node: the stored level of a real node; false for id 0 and ids past node_count. */
  function Level(T: Topology, s: State, id: nat): bool
    requires Shaped(T, s)
  {
    if 0 < id <= T.nodeCount then s.nodes[id].high else false
  }

  /** set_node: drive a node high (pullup) or low (pulldown), and queue it when its pullup
      flag changes.  Ids 0 and past node_count are ignored; the sentinels are not. */
  function SetNode(T: Topology, s: State, id: nat, high: bool): (r: State)
    requires Shaped(T, s)
    ensures Shaped(T, r)
  {
    if 0 < id <= T.nodeCount then
      var f := s.nodes[id];
      if f.pullup && !high then
        Push(T, s.(nodes := s.nodes[id := f.(pullup := false, pulldown := true)]), id)
      else if high && !f.pullup then
        Push(T, s.(nodes := s.nodes[id := f.(pullup := true, pulldown := false)]), id)
      else s
    else s
  }

  /** write_nodes: the last id gets the lowest bit of v, the one before it the next, and so on. */
  function WriteNodes(T: Topology, s: State, ids: seq<nat>, v: nat): (r: State)
    requires Shaped(T, s)
    ensures Shaped(T, r)
    decreases |ids|
  {
    if ids == [] then s
    else WriteNodes(T, SetNode(T, s, ids[|ids| - 1], v % 2 == 1), ids[..|ids| - 1], v / 2)
  }

  /** set_node is a drive request: afterwards a real node's pullup flag is the requested
      level, pullup and pulldown are not both set unless they were, and every other node keeps
      its flag word; the node is queued exactly when its pullup flag changed, and is then
      marked in_changelist (a node already marked stays where it is in the queue); its
      in_group mark is untouched.  A low request on an undriven node changes nothing: it
      does not set pulldown. */
  lemma SetNodeDrive(T: Topology, s: State, id: nat, high: bool)
    requires Shaped(T, s) && 1 <= id <= T.nodeCount
    ensures var r := SetNode(T, s, id, high);
      && r.nodes[id].pullup == high
      && (s.nodes[id].pullup != high ==> r.nodes[id].pulldown == !high)
      && (!(s.nodes[id].pullup && s.nodes[id].pulldown) ==> !(r.nodes[id].pullup && r.nodes[id].pulldown))
      && r.nodes[id].high == s.nodes[id].high
      && (forall n :: 0 <= n < |s.nodes| && n != id ==> r.nodes[n] == s.nodes[n])
      && r.on == s.on
      && (s.nodes[id].pullup == high ==> r == s)
      && r.nodes[id].inGroup == s.nodes[id].inGroup
      && (s.nodes[id].pullup != high ==> r.nodes[id].inChangelist)
      && (s.nodes[id].pullup != high && s.nodes[id].inChangelist ==> r.queue == s.queue)
      && (s.nodes[id].pullup != high && !s.nodes[id].inChangelist ==>
            r.queue == if |s.queue| + 1 < Capacity(T) then s.queue + [id] else [])
  {
  }

  /** Ids 0 and past node_count are ignored. */
  lemma SetNodeOutOfRange(T: Topology, s: State, id: nat, high: bool)
    requires Shaped(T, s) && !(1 <= id <= T.nodeCount)
    ensures SetNode(T, s, id, high) == s
  {
  }

  /** write_nodes only touches the flag words of the ids it is given. */
  lemma {:induction false} WriteNodesFrame(T: Topology, s: State, ids: seq<nat>, v: nat, n: nat)
    requires Shaped(T, s) && n < |s.nodes| && n !in ids
    ensures WriteNodes(T, s, ids, v).nodes[n] == s.nodes[n]
    decreases |ids|
  {
    if ids != [] {
      var last := ids[|ids| - 1];
      var s1 := SetNode(T, s, last, v % 2 == 1);
      if 1 <= last <= T.nodeCount {
        SetNodeDrive(T, s, last, v % 2 == 1);
      }
      assert n !in ids[..|ids| - 1];
      WriteNodesFrame(T, s1, ids[..|ids| - 1], v / 2, n);
    }
  }

  /** The bus order of write_nodes: the real node ids[i] of a list without repeats is driven
      by bit |ids|-1-i of v, so ids[0] takes the highest bit and the last id the lowest. */
  lemma {:induction false} WriteNodesPullup(T: Topology, s: State, ids: seq<nat>, v: nat, i: nat)
    requires Shaped(T, s) && Distinct(ids) && i < |ids| && 1 <= ids[i] <= T.nodeCount
    ensures WriteNodes(T, s, ids, v).nodes[ids[i]].pullup == Bit(v, |ids| - 1 - i)
    decreases |ids|
  {
    var last := ids[|ids| - 1];
    var init := ids[..|ids| - 1];
    var s1 := SetNode(T, s, last, v % 2 == 1);
    if i == |ids| - 1 {
      SetNodeDrive(T, s, last, v % 2 == 1);
      assert last !in init by {
        forall j | 0 <= j < |init|
          ensures init[j] != last
        {
          assert init[j] == ids[j];
        }
      }
      WriteNodesFrame(T, s1, init, v / 2, last);
    } else {
      assert init[i] == ids[i];
      WriteNodesPullup(T, s1, init, v / 2, i);
      assert Bit(v, |ids| - 1 - i) == Bit(v / 2, |init| - 1 - i);
    }
  }

  /** set(id, get(id)) is not a no-op in general: a node at the high level without a pullup
      flag (a level it took from its group) gets one and is queued. */
  lemma SetOwnLevelQueues()
    ensures var T := Topology(3, 1, 2, [0, 0, 0, 0, 0], [], [[], [], [], []]);
      var off := Flags(false, false, false, false, false);
      var s := State([off, off.(high := true), off, off.(high := true)], [], []);
      && Idle(T, s)
      && SetNode(T, s, 3, Level(T, s, 3)).queue == [3]
  {
  }

  // ---------------------------------------------------------------- group flood fill

  /** What a flood fill found: the members it added, in joining order, and whether it touched
      the ground or the power sentinel. */
  datatype Walk = Walk(members: seq<nat>, ground: bool, power: bool)

  function Then(a: Walk, b: Walk): Walk {
    Walk(a.members + b.members, a.ground || b.ground, a.power || b.power)
  }

  /** The ids of a sequence, as a set. */
  function SetOf(s: seq<nat>): set<nat> {
    set m | m in s
  }

  function Members(w: Walk): set<nat> {
    SetOf(w.members)
  }

  /** The ids 1 .. count. */
  function Ids(count: nat): (u: set<nat>)
    ensures forall n :: n in u <==> 1 <= n <= count
  {
    if count == 0 then {} else Ids(count - 1) + {count}
  }

  function Universe(T: Topology): set<nat> {
    Ids(T.nodeCount)
  }

  /** group_add(id) on a fill that has already collected `seen`: the sentinels are recorded
      and never expanded; a node not yet in the group joins and every sibling word whose
      on-bit is set is followed, depth first, in the node's sibling order. */
  function Visit(T: Topology, on: seq<bool>, seen: set<nat>, id: nat): (w: Walk)
    requires TopoOk(T) && |on| == |T.legTerm| && 1 <= id <= T.nodeCount
    ensures Distinct(w.members)
    ensures forall k :: 0 <= k < |w.members| ==> Ordinary(T, w.members[k]) && w.members[k] !in seen
    ensures Ordinary(T, id) && id !in seen ==> w.members != [] && w.members[0] == id
    ensures !Ordinary(T, id) || id in seen ==> w.members == []
    decreases Universe(T) - seen, 0, 0
  {
    if id == T.ground then Walk([], true, false)
    else if id == T.power then Walk([], false, true)
    else if id in seen then Walk([], false, false)
    else
      assert id in Universe(T);
      var rest := VisitSibs(T, on, seen + {id}, id, 0);
      Then(Walk([id], false, false), rest)
  }

  /** The loop of group_add over the sibling words of node n, from the i-th on. */
  function VisitSibs(T: Topology, on: seq<bool>, seen: set<nat>, n: nat, i: nat): (w: Walk)
    requires TopoOk(T) && |on| == |T.legTerm| && n <= T.nodeCount && i <= |T.siblings[n]|
    ensures Distinct(w.members)
    ensures forall k :: 0 <= k < |w.members| ==> Ordinary(T, w.members[k]) && w.members[k] !in seen
    decreases Universe(T) - seen, 1, |T.siblings[n]| - i
  {
    if i == |T.siblings[n]| then Walk([], false, false)
    else
      var e := T.siblings[n][i];
      var first := if on[e] then Visit(T, on, seen, T.legTerm[e]) else Walk([], false, false);
      var rest := VisitSibs(T, on, seen + Members(first), n, i + 1);
      Then(first, rest)
  }

  /** The group value after a fill step, starting from v: a touched ground wins, a touched
      power wins over anything but ground, otherwise the members' flag words are folded in. */
  function Absorb(v: GroupContains, w: Walk, fs: seq<Flags>): GroupContains {
    if w.ground then Ground
    else if w.power && v != Ground then Power
    else MemberFold(v, fs)
  }

  /** A fill split in two parts gives the same value as the two parts applied in turn, so
      the order in which group_add meets the sentinels and the members does not matter. */
  lemma AbsorbThen(v: GroupContains, a: Walk, b: Walk, fa: seq<Flags>, fb: seq<Flags>)
    ensures Absorb(v, Then(a, b), fa + fb) == Absorb(Absorb(v, a, fa), b, fb)
  {
    MemberFoldAppend(v, fa, fb);
  }

  /** Starting from nothing, Absorb is the group value of NmosNode. */
  lemma AbsorbFromNothing(w: Walk, fs: seq<Flags>)
    ensures Absorb(Nothing, w, fs) == GroupValue(w.ground, w.power, fs)
  {
  }

  /** The drive part of the flag words of the given members. */
  function DrivesOf(nodes: seq<Flags>, ms: seq<nat>): (fs: seq<Flags>)
    requires forall k :: 0 <= k < |ms| ==> ms[k] < |nodes|
    ensures |fs| == |ms|
    ensures forall k :: 0 <= k < |ms| ==> fs[k] == Drive(nodes[ms[k]])
  {
    seq(|ms|, k requires 0 <= k < |ms| => Drive(nodes[ms[k]]))
  }

  /** What group_add does to a joining member: in_group set, in_changelist cleared. */
  function Joined(f: Flags): Flags {
    f.(inGroup := true, inChangelist := false)
  }

  function Join(nodes: seq<Flags>, ms: seq<nat>): (r: seq<Flags>)
    ensures |r| == |nodes|
    ensures forall n :: 0 <= n < |nodes| ==> r[n] == if n in ms then Joined(nodes[n]) else nodes[n]
  {
    seq(|nodes|, n requires 0 <= n < |nodes| => if n in ms then Joined(nodes[n]) else nodes[n])
  }

  lemma ThenAssoc(a: Walk, b: Walk, c: Walk)
    ensures Then(Then(a, b), c) == Then(a, Then(b, c))
  {
    assert (a.members + b.members) + c.members == a.members + (b.members + c.members);
  }

  /** Joining in two runs is joining the concatenation. */
  lemma JoinJoin(nodes: seq<Flags>, a: seq<nat>, b: seq<nat>)
    ensures Join(Join(nodes, a), b) == Join(nodes, a + b)
  {
    var l := Join(Join(nodes, a), b);
    var r := Join(nodes, a + b);
    forall n | 0 <= n < |nodes|
      ensures l[n] == r[n]
    {
      assert n in a + b <==> n in a || n in b;
    }
  }

  /** Joining leaves the drive part of every flag word, and the drives of a concatenation
      are the concatenated drives. */
  lemma DrivesOfJoin(nodes: seq<Flags>, a: seq<nat>, b: seq<nat>)
    requires forall k :: 0 <= k < |a| ==> a[k] < |nodes|
    requires forall k :: 0 <= k < |b| ==> b[k] < |nodes|
    ensures DrivesOf(Join(nodes, a), b) == DrivesOf(nodes, b)
    ensures DrivesOf(nodes, a + b) == DrivesOf(nodes, a) + DrivesOf(nodes, b)
  {
  }

  lemma AppendAssoc(a: seq<nat>, b: seq<nat>, c: seq<nat>)
    ensures (a + b) + c == a + (b + c)
  {
  }

  lemma SetOfAppend(a: seq<nat>, b: seq<nat>)
    ensures SetOf(a + b) == SetOf(a) + SetOf(b)
  {
    assert forall m :: m in a + b <==> m in a || m in b;
  }

  /** Two consecutive parts of a fill: the flag words and the value after both are those of
      the combined fill. */
  lemma FillStep(nodes: seq<Flags>, v: GroupContains, a: Walk, b: Walk)
    requires forall k :: 0 <= k < |a.members| ==> a.members[k] < |nodes|
    requires forall k :: 0 <= k < |b.members| ==> b.members[k] < |nodes|
    ensures Join(Join(nodes, a.members), b.members) == Join(nodes, Then(a, b).members)
    ensures Absorb(Absorb(v, a, DrivesOf(nodes, a.members)), b, DrivesOf(Join(nodes, a.members), b.members))
         == Absorb(v, Then(a, b), DrivesOf(nodes, Then(a, b).members))
  {
    JoinJoin(nodes, a.members, b.members);
    DrivesOfJoin(nodes, a.members, b.members);
    AbsorbThen(v, a, b, DrivesOf(nodes, a.members), DrivesOf(nodes, b.members));
  }

  /** The in_group marks of the flag words are exactly the members g. */
  predicate Marked(ns: seq<Flags>, g: seq<nat>) {
    MarkedFrom(ns, g, 0)
  }

  /** The same, for the flag words from index i on, stated one word at a time. */
  predicate MarkedFrom(ns: seq<Flags>, g: seq<nat>, i: nat)
    decreases |ns| - i
  {
    i >= |ns| || ((ns[i].inGroup <==> i in g) && MarkedFrom(ns, g, i + 1))
  }

  lemma {:induction false} MarkedFromAt(ns: seq<Flags>, g: seq<nat>, i: nat, n: nat)
    requires MarkedFrom(ns, g, i) && i <= n < |ns|
    ensures ns[n].inGroup <==> n in g
    decreases n - i
  {
    if i < n { MarkedFromAt(ns, g, i + 1, n); }
  }

  lemma {:induction false} MarkedFromIntro(ns: seq<Flags>, g: seq<nat>, i: nat)
    requires forall n :: i <= n < |ns| ==> (ns[n].inGroup <==> n in g)
    ensures MarkedFrom(ns, g, i)
    decreases |ns| - i
  {
    if i < |ns| { MarkedFromIntro(ns, g, i + 1); }
  }

  /** Changing the in_changelist mark of one word keeps the marks of an empty group. */
  lemma MarkedFromFlag(ns: seq<Flags>, id: nat, b: bool)
    requires Marked(ns, []) && id < |ns|
    ensures Marked(ns[id := ns[id].(inChangelist := b)], [])
  {
    MarkedIff(ns, []);
    MarkedIff(ns[id := ns[id].(inChangelist := b)], []);
  }

  /** Marked says exactly that every word's mark is membership in g. */
  lemma MarkedIff(ns: seq<Flags>, g: seq<nat>)
    ensures Marked(ns, g) <==> forall n :: 0 <= n < |ns| ==> (ns[n].inGroup <==> n in g)
  {
    if Marked(ns, g) {
      forall n | 0 <= n < |ns| ensures ns[n].inGroup <==> n in g {
        MarkedFromAt(ns, g, 0, n);
      }
    }
    if forall n :: 0 <= n < |ns| ==> (ns[n].inGroup <==> n in g) {
      MarkedFromIntro(ns, g, 0);
    }
  }

  /** A fill step w took the group from members g0, flag words n0 and value v0 to g, n and v:
      its members were appended and joined, and its sentinels and drives absorbed. */
  predicate Filled(g0: seq<nat>, n0: seq<Flags>, v0: GroupContains, w: Walk,
                   g: seq<nat>, n: seq<Flags>, v: GroupContains)
  {
    && g == g0 + w.members
    && (forall k :: 0 <= k < |w.members| ==> w.members[k] < |n0|)
    && n == Join(n0, w.members)
    && v == Absorb(v0, w, DrivesOf(n0, w.members))
  }

  /** A step that finds nothing changes nothing. */
  lemma FilledNothing(g: seq<nat>, n: seq<Flags>, v: GroupContains, w: Walk)
    requires w.members == [] && !w.ground && !w.power
    ensures Filled(g, n, v, w, g, n, v)
  {
    assert g + [] == g;
    assert n == Join(n, []);
  }

  /** A fill step keeps the in_group marks equal to the members. */
  lemma FilledMarked(g0: seq<nat>, n0: seq<Flags>, v0: GroupContains, w: Walk,
                     g: seq<nat>, n: seq<Flags>, v: GroupContains)
    requires Marked(n0, g0) && Filled(g0, n0, v0, w, g, n, v)
    ensures Marked(n, g)
  {
    MarkedIff(n0, g0);
    forall x | 0 <= x < |n|
      ensures n[x].inGroup <==> x in g
    {
      assert x in g <==> x in g0 || x in w.members;
    }
    MarkedIff(n, g);
  }

  /** Two fill steps in a row are one fill step. */
  lemma FilledThen(g0: seq<nat>, n0: seq<Flags>, v0: GroupContains, a: Walk,
                   g1: seq<nat>, n1: seq<Flags>, v1: GroupContains, b: Walk,
                   g2: seq<nat>, n2: seq<Flags>, v2: GroupContains)
    requires Filled(g0, n0, v0, a, g1, n1, v1)
    requires Filled(g1, n1, v1, b, g2, n2, v2)
    ensures Filled(g0, n0, v0, Then(a, b), g2, n2, v2)
  {
    AppendAssoc(g0, a.members, b.members);
    FillStep(n0, v0, a, b);
  }

  /** The sibling loop over node n has reached word i: the fill acc made so far took the
      visited set from seen0 to seen, and followed by the fill of the remaining words from
      seen on it is the fill of all of them from seen0. */
  predicate SiblingsSoFar(T: Topology, on: seq<bool>, seen0: set<nat>, seen: set<nat>, n: nat, i: nat, acc: Walk) {
    && TopoOk(T) && |on| == |T.legTerm| && n <= T.nodeCount && i <= |T.siblings[n]|
    && seen0 <= seen
    && Then(acc, VisitSibs(T, on, seen, n, i)) == VisitSibs(T, on, seen0, n, 0)
  }

  lemma SiblingsStart(T: Topology, on: seq<bool>, seen: set<nat>, n: nat)
    requires TopoOk(T) && |on| == |T.legTerm| && n <= T.nodeCount
    ensures SiblingsSoFar(T, on, seen, seen, n, 0, Walk([], false, false))
  {
    assert [] + VisitSibs(T, on, seen, n, 0).members == VisitSibs(T, on, seen, n, 0).members;
  }

  lemma SiblingsDone(T: Topology, on: seq<bool>, seen0: set<nat>, seen: set<nat>, n: nat, acc: Walk)
    requires TopoOk(T) && n <= T.nodeCount
    requires SiblingsSoFar(T, on, seen0, seen, n, |T.siblings[n]|, acc)
    ensures acc == VisitSibs(T, on, seen0, n, 0)
  {
    assert acc.members + [] == acc.members;
  }

  /** One pass of the sibling loop: the fill so far, then sibling word i, then the rest. */
  lemma SiblingStep(T: Topology, on: seq<bool>, seen0: set<nat>, seen: set<nat>, n: nat, i: nat, acc: Walk)
    returns (w: Walk)
    requires SiblingsSoFar(T, on, seen0, seen, n, i, acc) && i < |T.siblings[n]|
    ensures var e := T.siblings[n][i];
      w == if on[e] then Visit(T, on, seen, T.legTerm[e]) else Walk([], false, false)
    ensures SiblingsSoFar(T, on, seen0, seen + Members(w), n, i + 1, Then(acc, w))
  {
    var e := T.siblings[n][i];
    w := if on[e] then Visit(T, on, seen, T.legTerm[e]) else Walk([], false, false);
    ThenAssoc(acc, w, VisitSibs(T, on, seen + Members(w), n, i + 1));
  }

  /** The fill sibling word i of node n makes from the visited set seen: the fill from its
      far end when its on-bit is set, nothing otherwise. */
  function SiblingWalk(T: Topology, on: seq<bool>, seen: set<nat>, n: nat, i: nat): Walk
    requires TopoOk(T) && |on| == |T.legTerm| && n <= T.nodeCount && i < |T.siblings[n]|
  {
    var e := T.siblings[n][i];
    if on[e] then Visit(T, on, seen, T.legTerm[e]) else Walk([], false, false)
  }

  /** One pass of the sibling loop, on the group, flag words and value before (g1, n1, v1)
      and after (g2, n2, v2) following word i. */
  lemma SiblingPass(T: Topology, on: seq<bool>, seen0: set<nat>, n: nat, i: nat,
                    g0: seq<nat>, n0: seq<Flags>, v0: GroupContains, acc: Walk,
                    g1: seq<nat>, n1: seq<Flags>, v1: GroupContains, w: Walk,
                    g2: seq<nat>, n2: seq<Flags>, v2: GroupContains,
                    acc2: Walk, i2: nat, seen2: set<nat>)
    requires SiblingsSoFar(T, on, seen0, SetOf(g1), n, i, acc) && i < |T.siblings[n]|
    requires w == SiblingWalk(T, on, SetOf(g1), n, i)
    requires Filled(g0, n0, v0, acc, g1, n1, v1) && Filled(g1, n1, v1, w, g2, n2, v2)
    requires acc2 == Then(acc, w) && i2 == i + 1 && seen2 == SetOf(g2)
    ensures Filled(g0, n0, v0, acc2, g2, n2, v2)
    ensures SiblingsSoFar(T, on, seen0, seen2, n, i2, acc2)
  {
    var w' := SiblingStep(T, on, seen0, SetOf(g1), n, i, acc);
    SetOfAppend(g1, w.members);
    FilledThen(g0, n0, v0, acc, g1, n1, v1, w, g2, n2, v2);
  }

  /** group_setup(id) on a network whose nodes are in no group: the fill from id. */
  function Group(T: Topology, s: State, id: nat): Walk
    requires Shaped(T, s) && 1 <= id <= T.nodeCount
  {
    Visit(T, s.on, {}, id)
  }

  // ---------------------------------------------------------------- propagation

  /** Both on-bits of every transistor in [lo, hi) flipped. */
  function ToggleRange(on: seq<bool>, lo: nat, hi: nat): (r: seq<bool>)
    ensures |r| == |on|
    ensures forall e :: 0 <= e < |on| ==> r[e] == if 2 * lo <= e < 2 * hi then !on[e] else on[e]
  {
    seq(|on|, e requires 0 <= e < |on| => if 2 * lo <= e < 2 * hi then !on[e] else on[e])
  }

  /** The ids one transistor adds to change_order after its gate took level v: when it turned
      on, nothing if its terminals have the same level, else c1, or c2 when c1 is a sentinel;
      when it turned off, c1 then c2. */
  function AddsOf(T: Topology, nodes: seq<Flags>, v: bool, t: nat): (ids: seq<nat>)
    requires TopoOk(T) && |nodes| == T.nodeCount + 1 && 2 * t + 1 < |T.legTerm|
    ensures AllIds(T, ids)
  {
    var c1 := T.legTerm[2 * t];
    var c2 := T.legTerm[2 * t + 1];
    if v then
      if nodes[c1].high == nodes[c2].high then []
      else if c1 != T.power && c1 != T.ground then [c1]
      else [c2]
    else [c1, c2]
  }

  /** The ids collected over the transistors lo .. hi-1, in that order. */
  function Adds(T: Topology, nodes: seq<Flags>, v: bool, lo: nat, hi: nat): (ids: seq<nat>)
    requires TopoOk(T) && |nodes| == T.nodeCount + 1 && lo <= hi && 2 * hi <= |T.legTerm|
    ensures AllIds(T, ids)
    decreases hi - lo
  {
    if lo == hi then [] else Adds(T, nodes, v, lo, hi - 1) + AddsOf(T, nodes, v, hi - 1)
  }

  /** Sorting keeps the ids valid. */
  lemma SortedIds(T: Topology, ids: seq<nat>)
    requires AllIds(T, ids)
    ensures AllIds(T, Sorted(ids))
  {
    var r := Sorted(ids);
    forall k | 0 <= k < |r|
      ensures 1 <= r[k] <= T.nodeCount
    {
      assert r[k] in multiset(r);
      assert r[k] in multiset(ids);
      var j :| 0 <= j < |ids| && ids[j] == r[k];
    }
  }

  /** One more transistor t toggled. */
  lemma ToggleStep(on: seq<bool>, lo: nat, t: nat)
    requires 2 * t + 1 < |on|
    ensures ToggleRange(on, lo, t + 1) ==
      if lo <= t then ToggleRange(on, lo, t)[2 * t := !on[2 * t]][2 * t + 1 := !on[2 * t + 1]]
      else ToggleRange(on, lo, t)
  {
  }

  /** The commit loop of change_order: pushing the sorted rest from s reaches the same state
      as pushing all the collected ids, sorted, from s0. */
  predicate Committing(T: Topology, s0: State, all: seq<nat>, s: State, rest: seq<nat>) {
    && Shaped(T, s0) && Shaped(T, s) && AllIds(T, all) && AllIds(T, rest)
    && AllIds(T, Sorted(all)) && AllIds(T, Sorted(rest))
    && PushAll(T, s, Sorted(rest)) == PushAll(T, s0, Sorted(all))
  }

  lemma CommitStart(T: Topology, s0: State, all: seq<nat>)
    requires Shaped(T, s0) && AllIds(T, all)
    ensures Committing(T, s0, all, s0, all)
  {
    SortedIds(T, all);
  }

  /** Popping a least id and pushing it is the first step of pushing the sorted ids. */
  lemma CommitStep(T: Topology, s0: State, all: seq<nat>, s: State, rest: seq<nat>)
    requires Committing(T, s0, all, s, rest) && rest != []
    ensures var k := ArgMin(rest);
      1 <= rest[k] <= T.nodeCount && Committing(T, s0, all, Push(T, s, rest[k]), RemoveAt(rest, k))
  {
    var k := ArgMin(rest);
    var x := rest[k];
    var rest' := RemoveAt(rest, k);
    var sorted, sorted' := Sorted(rest), Sorted(rest');
    SortedArgMin(rest);
    assert sorted == [x] + sorted';
    RemoveAtIds(T, rest, k);
    SortedIds(T, rest');
    PushAllCons(T, s, x, sorted');
    assert PushAll(T, Push(T, s, x), sorted') == PushAll(T, s, sorted);
  }

  lemma RemoveAtIds(T: Topology, ids: seq<nat>, k: nat)
    requires AllIds(T, ids) && k < |ids|
    ensures AllIds(T, RemoveAt(ids, k))
  {
    var r := RemoveAt(ids, k);
    forall i | 0 <= i < |r|
      ensures 1 <= r[i] <= T.nodeCount
    {
      if i < k { assert r[i] == ids[i]; } else { assert r[i] == ids[i + 1]; }
    }
  }

  lemma PushAllCons(T: Topology, s: State, x: nat, ids: seq<nat>)
    requires Shaped(T, s) && 1 <= x <= T.nodeCount && AllIds(T, ids)
    ensures AllIds(T, [x] + ids)
    ensures PushAll(T, s, [x] + ids) == PushAll(T, Push(T, s, x), ids)
  {
    assert ([x] + ids)[1..] == ids;
  }

  lemma CommitDone(T: Topology, s0: State, all: seq<nat>, s: State)
    requires Committing(T, s0, all, s, [])
    ensures s == PushAll(T, s0, Sorted(all))
  {
  }

  /** A member whose level differs from v: the level flipped, both on-bits of every
      transistor it gates toggled, and the terminals those transistors name pushed smallest
      id first. */
  function Flip(T: Topology, s: State, v: bool, m: nat): (r: State)
    requires Shaped(T, s) && 1 <= m <= T.nodeCount
    ensures Shaped(T, r)
  {
    var lo, hi := T.gateStart[m], T.gateStart[m + 1];
    var flipped := s.nodes[m := s.nodes[m].(high := !s.nodes[m].high)];
    var adds := Adds(T, flipped, v, lo, hi);
    SortedIds(T, adds);
    PushAll(T, State(flipped, ToggleRange(s.on, lo, hi), s.queue), Sorted(adds))
  }

  /** One pass of recalc_node's loop on the popped member m: in_group cleared, then the
      member flipped if its level differs from v. */
  function Process(T: Topology, s: State, v: bool, m: nat): (r: State)
    requires Shaped(T, s) && 1 <= m <= T.nodeCount
    ensures Shaped(T, r)
  {
    var s1 := s.(nodes := s.nodes[m := s.nodes[m].(inGroup := false)]);
    if s1.nodes[m].high == v then s1 else Flip(T, s1, v, m)
  }

  /** The members popped from the group buffer, last joined first. */
  function Propagate(T: Topology, s: State, v: bool, ms: seq<nat>): (r: State)
    requires Shaped(T, s) && AllIds(T, ms)
    ensures Shaped(T, r)
    decreases |ms|
  {
    if ms == [] then s
    else Propagate(T, Process(T, s, v, ms[|ms| - 1]), v, ms[..|ms| - 1])
  }

  /** recalc_node(id): nothing unless id is marked in_changelist; otherwise the mark is cleared,
      the group of id is formed, and every member is brought to the group's level. */
  function Recalc(T: Topology, s: State, id: nat): (r: State)
    requires Shaped(T, s) && 1 <= id <= T.nodeCount
    ensures Shaped(T, r)
  {
    if !s.nodes[id].inChangelist then s
    else
      var s1 := s.(nodes := s.nodes[id := s.nodes[id].(inChangelist := false)]);
      var w := Group(T, s1, id);
      var v := GetValue(GroupValue(w.ground, w.power, DrivesOf(s1.nodes, w.members)));
      Propagate(T, s1.(nodes := Join(s1.nodes, w.members)), v, w.members)
  }

  /** Recalc of a pending node, unfolded into the state after the group is formed. */
  lemma RecalcPending(T: Topology, s: State, id: nat)
    requires Shaped(T, s) && 1 <= id <= T.nodeCount && s.nodes[id].inChangelist
    ensures var s1 := s.(nodes := s.nodes[id := s.nodes[id].(inChangelist := false)]);
      var w := Visit(T, s1.on, {}, id);
      var v := GetValue(GroupValue(w.ground, w.power, DrivesOf(s1.nodes, w.members)));
      && Shaped(T, s1.(nodes := Join(s1.nodes, w.members))) && AllIds(T, w.members)
      && Recalc(T, s, id) == Propagate(T, s1.(nodes := Join(s1.nodes, w.members)), v, w.members)
  {
  }

  /** Propagate over a non-empty group, unfolded into the pass on the member that joined
      last, with that member's mark already cleared into s1. */
  lemma PropagateLast(T: Topology, s: State, v: bool, ms: seq<nat>, s1: State)
    requires Shaped(T, s) && AllIds(T, ms) && ms != []
    requires var m := ms[|ms| - 1]; s1 == s.(nodes := s.nodes[m := s.nodes[m].(inGroup := false)])
    ensures Shaped(T, s1) && AllIds(T, ms[..|ms| - 1])
    ensures var m := ms[|ms| - 1];
      Propagate(T, s, v, ms) == Propagate(T, if s1.nodes[m].high == v then s1 else Flip(T, s1, v, m), v, ms[..|ms| - 1])
  {
  }

  /** recalc_nodes, with at most `fuel` ids taken off the queue. */
  function Run(T: Topology, s: State, fuel: nat): (r: State)
    requires Shaped(T, s)
    ensures Shaped(T, r)
    decreases fuel
  {
    if fuel == 0 || s.queue == [] then s
    else Run(T, Recalc(T, s.(queue := s.queue[1..]), s.queue[0]), fuel - 1)
  }

  /** Pushing one more id after a run of pushes. */
  lemma {:induction false} PushAllSnoc(T: Topology, s: State, ids: seq<nat>, x: nat)
    requires Shaped(T, s) && AllIds(T, ids) && 1 <= x <= T.nodeCount
    ensures AllIds(T, ids + [x])
    ensures PushAll(T, s, ids + [x]) == Push(T, PushAll(T, s, ids), x)
    decreases |ids|
  {
    if ids == [] {
      assert [] + [x] == [x];
    } else {
      assert (ids + [x])[1..] == ids[1..] + [x];
      PushAllSnoc(T, Push(T, s, ids[0]), ids[1..], x);
    }
  }

  /** One pass of the drain loop. */
  lemma RunStep(T: Topology, s: State, fuel: nat)
    requires Shaped(T, s) && fuel > 0 && s.queue != []
    ensures 1 <= s.queue[0] <= T.nodeCount && Shaped(T, s.(queue := s.queue[1..]))
    ensures Run(T, s, fuel) == Run(T, Recalc(T, s.(queue := s.queue[1..]), s.queue[0]), fuel - 1)
  {
  }

  /** Taking the head off the queue keeps the idle invariant. */
  lemma PopIdle(T: Topology, s: State)
    requires Idle(T, s) && s.queue != []
    ensures 1 <= s.queue[0] <= T.nodeCount && Idle(T, s.(queue := s.queue[1..]))
  {
  }

  /** The ids 1 .. count in increasing order: what stabilize_network pushes. */
  function Range(lo: nat, hi: nat): (ids: seq<nat>)
    requires lo <= hi
    ensures |ids| == hi - lo
    ensures forall k :: 0 <= k < |ids| ==> ids[k] == lo + k
    decreases hi - lo
  {
    if lo == hi then [] else [lo] + Range(lo + 1, hi)
  }

  lemma {:induction false} RangeSnoc(lo: nat, hi: nat)
    requires lo <= hi
    ensures Range(lo, hi + 1) == Range(lo, hi) + [hi]
    decreases hi - lo
  {
    if lo < hi {
      RangeSnoc(lo + 1, hi);
    }
  }

  /** One pass of the stabilize_network loop: pushing id i after ids 1 .. i-1 pushes ids
      1 .. i and keeps the network idle. */
  lemma PushAllStep(T: Topology, s0: State, s: State, s2: State, i: nat, i2: nat)
    requires Shaped(T, s0) && 1 <= i <= T.nodeCount && AllIds(T, Range(1, i))
    requires s == PushAll(T, s0, Range(1, i)) && Idle(T, s)
    requires s2 == Push(T, s, i) && i2 == i + 1
    ensures AllIds(T, Range(1, i2)) && s2 == PushAll(T, s0, Range(1, i2)) && Idle(T, s2)
  {
    RangeSnoc(1, i);
    PushAllSnoc(T, s0, Range(1, i), i);
    PushIdle(T, s, i);
  }

  // ---------------------------------------------------------------- the idle invariant

  /** Every on-bit of a transistor records whether its gate is high; the transistors gated by
      power are the exception, because power is made high after the legs were laid out (all
      off) and power never joins a group, so they stay off. */
  predicate Mirror(T: Topology, nodes: seq<Flags>, on: seq<bool>)
    requires TopoOk(T) && |nodes| == T.nodeCount + 1 && |on| == |T.legTerm|
  {
    forall n, e :: 1 <= n <= T.nodeCount && 2 * T.gateStart[n] <= e < 2 * T.gateStart[n + 1] ==>
      (on[e] <==> nodes[n].high != (n == T.power))
  }

  /** The part of the invariant between public calls that propagation keeps throughout:
      pullup and pulldown never both set, power high, ground low, on-bits mirroring gates. */
  predicate Steady(T: Topology, s: State) {
    && Shaped(T, s)
    && (forall n :: 0 <= n < |s.nodes| ==> !(s.nodes[n].pullup && s.nodes[n].pulldown))
    && s.nodes[T.power].high
    && (T.power != T.ground ==> !s.nodes[T.ground].high)
    && Mirror(T, s.nodes, s.on)
  }

  /** What holds between two public calls of the engine: Steady, and no group open. */
  predicate Idle(T: Topology, s: State) {
    Steady(T, s) && forall n :: 0 <= n < |s.nodes| ==> !s.nodes[n].inGroup
  }

  /** Flag words that differ at most in their in_changelist marks. */
  predicate OnlyQueued(a: seq<Flags>, b: seq<Flags>) {
    |a| == |b| && forall n :: 0 <= n < |a| ==> b[n] == a[n].(inChangelist := b[n].inChangelist)
  }

  /** Flag words with the same drives and levels; the two marks may differ. */
  predicate SameDrives(a: seq<Flags>, b: seq<Flags>) {
    |a| == |b| && forall n :: 0 <= n < |a| ==> Drive(a[n]) == Drive(b[n])
  }

  predicate AllOrdinary(T: Topology, ms: seq<nat>) {
    forall k :: 0 <= k < |ms| ==> Ordinary(T, ms[k])
  }

  /** changed_push touches nothing but in_changelist and the queue. */
  lemma PushFrame(T: Topology, s: State, id: nat)
    requires Shaped(T, s) && 1 <= id <= T.nodeCount
    ensures OnlyQueued(s.nodes, Push(T, s, id).nodes)
  {
  }

  lemma {:induction false} PushAllFrame(T: Topology, s: State, ids: seq<nat>)
    requires Shaped(T, s) && AllIds(T, ids)
    ensures OnlyQueued(s.nodes, PushAll(T, s, ids).nodes)
    decreases |ids|
  {
    if ids != [] {
      var s1 := Push(T, s, ids[0]);
      PushFrame(T, s, ids[0]);
      PushAllFrame(T, s1, ids[1..]);
    }
  }

  /** Words differing only in in_changelist have the same drives and the same in_group marks. */
  lemma OnlyQueuedDrives(a: seq<Flags>, b: seq<Flags>)
    requires OnlyQueued(a, b)
    ensures SameDrives(a, b)
    ensures forall n :: 0 <= n < |a| ==> b[n].inGroup == a[n].inGroup
  {
  }

  /** Steady looks only at the drives, the levels and the on-bits. */
  lemma SteadyDrives(T: Topology, s: State, r: State)
    requires Steady(T, s) && Shaped(T, r) && r.on == s.on && SameDrives(s.nodes, r.nodes)
    ensures Steady(T, r)
  {
    forall n | 0 <= n < |s.nodes|
      ensures r.nodes[n].high == s.nodes[n].high
      ensures r.nodes[n].pullup == s.nodes[n].pullup && r.nodes[n].pulldown == s.nodes[n].pulldown
    {
      assert Drive(r.nodes[n]) == Drive(s.nodes[n]);
    }
  }

  /** Pushing ids keeps the idle invariant. */
  lemma PushAllIdle(T: Topology, s: State, ids: seq<nat>)
    requires Idle(T, s) && AllIds(T, ids)
    ensures Idle(T, PushAll(T, s, ids))
  {
    var r := PushAll(T, s, ids);
    PushAllFrame(T, s, ids);
    OnlyQueuedDrives(s.nodes, r.nodes);
    SteadyDrives(T, s, r);
  }

  lemma PushIdle(T: Topology, s: State, id: nat)
    requires Idle(T, s) && 1 <= id <= T.nodeCount
    ensures Idle(T, Push(T, s, id))
  {
    PushFrame(T, s, id);
    SteadyDrives(T, s, Push(T, s, id));
  }

  /** set_node keeps the idle invariant; in particular pullup and pulldown never meet. */
  lemma SetNodeIdle(T: Topology, s: State, id: nat, high: bool)
    requires Idle(T, s)
    ensures Idle(T, SetNode(T, s, id, high))
  {
    if 0 < id <= T.nodeCount {
      var f := s.nodes[id];
      if f.pullup && !high {
        var s1 := s.(nodes := s.nodes[id := f.(pullup := false, pulldown := true)]);
        assert Idle(T, s1);
        PushIdle(T, s1, id);
      } else if high && !f.pullup {
        var s1 := s.(nodes := s.nodes[id := f.(pullup := true, pulldown := false)]);
        assert Idle(T, s1);
        PushIdle(T, s1, id);
      }
    }
  }

  /** The gate ranges of two different nodes do not overlap. */
  lemma GateRangesDisjoint(T: Topology, m: nat, n: nat, e: nat)
    requires TopoOk(T) && 1 <= m <= T.nodeCount && 1 <= n <= T.nodeCount && m != n
    requires 2 * T.gateStart[m] <= e < 2 * T.gateStart[m + 1]
    ensures !(2 * T.gateStart[n] <= e < 2 * T.gateStart[n + 1])
  {
    if n < m {
      assert T.gateStart[n + 1] <= T.gateStart[m];
    } else {
      assert T.gateStart[m + 1] <= T.gateStart[n];
    }
  }

  /** Flipping an ordinary member keeps Steady: its level and the on-bits of exactly the
      transistors it gates change together.  The in_group marks are untouched. */
  lemma FlipSteady(T: Topology, s: State, v: bool, m: nat)
    requires Steady(T, s) && Ordinary(T, m)
    ensures Steady(T, Flip(T, s, v, m))
    ensures forall n :: 0 <= n < |s.nodes| ==> Flip(T, s, v, m).nodes[n].inGroup == s.nodes[n].inGroup
  {
    var lo, hi := T.gateStart[m], T.gateStart[m + 1];
    var flipped := s.nodes[m := s.nodes[m].(high := !s.nodes[m].high)];
    var adds := Adds(T, flipped, v, lo, hi);
    SortedIds(T, adds);
    var f := State(flipped, ToggleRange(s.on, lo, hi), s.queue);
    ToggleSteady(T, s, m);
    var r := PushAll(T, f, Sorted(adds));
    assert r == Flip(T, s, v, m);
    PushAllFrame(T, f, Sorted(adds));
    OnlyQueuedDrives(f.nodes, r.nodes);
    SteadyDrives(T, f, r);
  }

  /** The level of m flipped together with the on-bits of the transistors it gates. */
  lemma ToggleSteady(T: Topology, s: State, m: nat)
    requires Steady(T, s) && Ordinary(T, m)
    ensures var lo, hi := T.gateStart[m], T.gateStart[m + 1];
      Steady(T, State(s.nodes[m := s.nodes[m].(high := !s.nodes[m].high)], ToggleRange(s.on, lo, hi), s.queue))
  {
    var lo, hi := T.gateStart[m], T.gateStart[m + 1];
    var f := State(s.nodes[m := s.nodes[m].(high := !s.nodes[m].high)], ToggleRange(s.on, lo, hi), s.queue);
    forall n, e | 1 <= n <= T.nodeCount && 2 * T.gateStart[n] <= e < 2 * T.gateStart[n + 1]
      ensures f.on[e] <==> f.nodes[n].high != (n == T.power)
    {
      if n != m {
        GateRangesDisjoint(T, n, m, e);
      }
    }
  }

  /** Flip in terms of the state after the gate loop and the ids it collected. */
  lemma FlipAfterLoop(T: Topology, s: State, v: bool, m: nat, f: State, adds: seq<nat>)
    requires Shaped(T, s) && 1 <= m <= T.nodeCount
    requires f == State(s.nodes[m := s.nodes[m].(high := !s.nodes[m].high)],
                        ToggleRange(s.on, T.gateStart[m], T.gateStart[m + 1]), s.queue)
    requires adds == Adds(T, f.nodes, v, T.gateStart[m], T.gateStart[m + 1])
    ensures Shaped(T, f) && AllIds(T, Sorted(adds))
    ensures Flip(T, s, v, m) == PushAll(T, f, Sorted(adds))
  {
    SortedIds(T, adds);
  }

  /** One pass of the member loop keeps Steady and clears the mark of m only. */
  lemma ProcessSteady(T: Topology, s: State, v: bool, m: nat)
    requires Steady(T, s) && Ordinary(T, m)
    ensures Steady(T, Process(T, s, v, m))
    ensures forall n :: 0 <= n < |s.nodes| ==>
      Process(T, s, v, m).nodes[n].inGroup == (s.nodes[n].inGroup && n != m)
  {
    var s1 := s.(nodes := s.nodes[m := s.nodes[m].(inGroup := false)]);
    assert SameDrives(s.nodes, s1.nodes);
    SteadyDrives(T, s, s1);
    if s1.nodes[m].high != v {
      FlipSteady(T, s1, v, m);
    }
  }

  /** Popping a group whose marks are exactly its distinct ordinary members leaves no mark
      behind and keeps Steady. */
  lemma {:induction false} PropagateIdle(T: Topology, s: State, v: bool, ms: seq<nat>)
    requires Steady(T, s) && AllOrdinary(T, ms) && Distinct(ms)
    requires forall n :: 0 <= n < |s.nodes| ==> (s.nodes[n].inGroup <==> n in ms)
    ensures AllIds(T, ms) && Idle(T, Propagate(T, s, v, ms))
    decreases |ms|
  {
    if ms != [] {
      var m := ms[|ms| - 1];
      var init := ms[..|ms| - 1];
      ProcessSteady(T, s, v, m);
      var s1 := Process(T, s, v, m);
      forall n | 0 <= n < |s1.nodes|
        ensures s1.nodes[n].inGroup <==> n in init
      {
        assert ms == init + [m];
        assert n in ms <==> n in init || n == m;
        if n == m {
          assert m !in init by {
            forall j | 0 <= j < |init|
              ensures init[j] != m
            {
              assert init[j] == ms[j];
            }
          }
        }
      }
      PropagateIdle(T, s1, v, init);
    }
  }

  /** recalc_node keeps the idle invariant: every member it formed the group from is popped
      and unmarked again, and the sentinels never change level. */
  lemma RecalcIdle(T: Topology, s: State, id: nat)
    requires Idle(T, s) && 1 <= id <= T.nodeCount
    ensures Idle(T, Recalc(T, s, id))
  {
    if s.nodes[id].inChangelist {
      var s1 := s.(nodes := s.nodes[id := s.nodes[id].(inChangelist := false)]);
      var w := Group(T, s1, id);
      var v := GetValue(GroupValue(w.ground, w.power, DrivesOf(s1.nodes, w.members)));
      var s2 := s1.(nodes := Join(s1.nodes, w.members));
      assert Recalc(T, s, id) == Propagate(T, s2, v, w.members);
      FormSteady(T, s, s1, w);
      PropagateIdle(T, s2, v, w.members);
    }
  }

  /** Forming a group from an idle state marks exactly the members and keeps Steady. */
  lemma FormSteady(T: Topology, s: State, s1: State, w: Walk)
    requires Idle(T, s) && Shaped(T, s1) && s1.on == s.on && SameDrives(s.nodes, s1.nodes)
    requires forall n :: 0 <= n < |s1.nodes| ==> !s1.nodes[n].inGroup
    ensures var s2 := s1.(nodes := Join(s1.nodes, w.members));
      && Steady(T, s2)
      && forall n :: 0 <= n < |s2.nodes| ==> (s2.nodes[n].inGroup <==> n in w.members)
  {
    var s2 := s1.(nodes := Join(s1.nodes, w.members));
    assert SameDrives(s.nodes, s2.nodes);
    SteadyDrives(T, s, s2);
  }

  /** The drain loop keeps the idle invariant. */
  lemma {:induction false} RunIdle(T: Topology, s: State, fuel: nat)
    requires Idle(T, s)
    ensures Idle(T, Run(T, s, fuel))
    decreases fuel
  {
    if fuel != 0 && s.queue != [] {
      var s1 := s.(queue := s.queue[1..]);
      RecalcIdle(T, s1, s.queue[0]);
      RunIdle(T, Recalc(T, s1, s.queue[0]), fuel - 1);
    }
  }

  // ---------------------------------------------------------------- the network as built

  /** The flag word create_nodes gives node n (is_pullup), with the high flag the constructor
      sets on the power node; node 0 is the unused dummy. */
  function InitialFlags(T: Topology, pullups: seq<bool>, n: nat): Flags
    requires |pullups| == T.nodeCount
  {
    if n == 0 || n > T.nodeCount then Flags(false, false, false, false, false)
    else Flags(pullups[n - 1], false, n == T.power, false, false)
  }

  /** The state of a freshly built network: no leg word on, nothing queued. */
  function Initial(T: Topology, pullups: seq<bool>): (s: State)
    requires TopoOk(T) && |pullups| == T.nodeCount
    ensures Shaped(T, s)
  {
    State(seq(T.nodeCount + 1, n requires 0 <= n <= T.nodeCount => InitialFlags(T, pullups, n)), seq(|T.legTerm|, _ => false), [])
  }

  /** A freshly built network is idle: power is the only high node, and since the constructor
      raises it without toggling its leg words, the words power gates stay off as Mirror
      demands of the power node. */
  lemma InitialIdle(T: Topology, pullups: seq<bool>)
    requires TopoOk(T) && |pullups| == T.nodeCount
    ensures Idle(T, Initial(T, pullups))
    ensures forall n :: 1 <= n <= T.nodeCount ==>
      Initial(T, pullups).nodes[n].pullup == pullups[n - 1] && (Initial(T, pullups).nodes[n].high <==> n == T.power)
  {
    var s := Initial(T, pullups);
    forall n, e | 1 <= n <= T.nodeCount && 2 * T.gateStart[n] <= e < 2 * T.gateStart[n + 1]
      ensures s.on[e] <==> s.nodes[n].high != (n == T.power)
    {
      assert T.gateStart[n + 1] <= T.gateStart[T.nodeCount + 1];
    }
  }
}

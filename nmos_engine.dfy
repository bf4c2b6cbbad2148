/** The network engine of src/nmos.cc: node flag words, leg on-bits and the change queue held
    in arrays and updated in place, each operation proved to follow the reference step of
    NmosSpec on the abstract State. */
module Nmos {
  import opened NmosNode
  import opened ChangeOrder
  import opened Bits
  import opened NmosSpec

  /** The live part of the ring buffer changed_queue, from eating up to feeding. */
  function Ring(buf: seq<nat>, eating: nat, feeding: nat): (q: seq<nat>)
    requires eating < |buf| && feeding < |buf|
    ensures |q| < |buf|
    ensures |q| == 0 <==> eating == feeding
  {
    if eating <= feeding then buf[eating..feeding] else buf[eating..] + buf[..feeding]
  }

  /** An iterator advanced by one slot, back to the start at the end of the buffer. */
  function Next(i: nat, cap: nat): nat {
    if i + 1 == cap then 0 else i + 1
  }

  /** changed_push on the ring: the slot at feeding is written and feeding advances; when that
      makes it equal to eating, the ring reads as empty. */
  lemma RingPush(buf: seq<nat>, eating: nat, feeding: nat, id: nat)
    requires eating < |buf| && feeding < |buf|
    ensures Ring(buf[feeding := id], eating, Next(feeding, |buf|))
         == if |Ring(buf, eating, feeding)| + 1 < |buf| then Ring(buf, eating, feeding) + [id] else []
  {
    var b := buf[feeding := id];
    var f := Next(feeding, |buf|);
    if eating <= feeding {
      if f != 0 {
        assert b[eating..f] == buf[eating..feeding] + [id];
      } else if eating != 0 {
        assert b[eating..] == buf[eating..feeding] + [id];
        assert b[..0] == [];
      }
    } else {
      if f != eating {
        assert b[eating..] == buf[eating..];
        assert b[..f] == buf[..feeding] + [id];
      }
    }
  }

  /** changed_pop on the ring: the slot at eating is the head and eating advances past it. */
  lemma RingPop(buf: seq<nat>, eating: nat, feeding: nat)
    requires eating < |buf| && feeding < |buf| && eating != feeding
    ensures Ring(buf, eating, feeding)[0] == buf[eating]
    ensures Ring(buf, Next(eating, |buf|), feeding) == Ring(buf, eating, feeding)[1..]
  {
    var e := Next(eating, |buf|);
    if eating > feeding && e == 0 {
      assert buf[eating..] == [buf[eating]];
      assert buf[0..feeding] == buf[..feeding];
    }
  }

  class Engine {
    /** The wiring built from the description; power and ground are its sentinels. */
    const topo: Topology
    /** transistor_count as stored: the description's count in a uint16_t. */
    const transistorTotal: nat
    /** One flag word per node, index 0 unused. */
    const nodes: array<Flags>
    /** The on-bit of every leg word. */
    const on: array<bool>
    /** The ring buffer of changed_queue, with its two iterators. */
    const changedQueue: array<nat>
    var eating: nat
    var feeding: nat
    /** current_group up to group_tail, and group_current_value. */
    var group: seq<nat>
    var groupValue: GroupContains
    /** change_order up to change_count, as a bag: the heap layout is not modelled. */
    var changeOrder: seq<nat>

    /** The shape every operation relies on. */
    ghost predicate Inv()
      reads this`eating, this`feeding, changedQueue
    {
      && TopoOk(topo)
      && nodes.Length == topo.nodeCount + 1
      && on.Length == |topo.legTerm|
      && changedQueue.Length == Capacity(topo)
      && eating < changedQueue.Length && feeding < changedQueue.Length
      && AllIds(topo, Ring(changedQueue[..], eating, feeding))
    }

    /** The abstract state the arrays hold. */
    ghost function Abs(): (s: State)
      reads this`eating, this`feeding, changedQueue, nodes, on
      requires Inv()
      ensures Shaped(topo, s)
    {
      State(nodes[..], on[..], Ring(changedQueue[..], eating, feeding))
    }

    /** The invariant between public calls: no group open and no change collected. */
    ghost predicate Valid()
      reads this`eating, this`feeding, changedQueue, nodes, on, this`group, this`changeOrder
    {
      Inv() && Idle(topo, Abs()) && group == [] && changeOrder == []
    }

    /** The nmos constructor once the wiring is laid out: the flag words with their pullup
        bits, every leg word off, an empty changed_queue of node_count * 32 slots, an empty
        group, and the power node raised.  transistor_count keeps its low 16 bits. */
    constructor (T: Topology, pullups: seq<bool>, transistorCount: nat)
      requires TopoOk(T) && |pullups| == T.nodeCount
      ensures Valid() && topo == T && transistorTotal == transistorCount % 0x10000
      ensures Abs() == Initial(T, pullups)
      ensures fresh(nodes) && fresh(on) && fresh(changedQueue)
    {
      var ns := new Flags[T.nodeCount + 1](n => if 1 <= n <= T.nodeCount then Flags(pullups[n - 1], false, false, false, false)
                                               else Flags(false, false, false, false, false));
      ns[T.power] := ns[T.power].(high := true);
      topo := T;
      transistorTotal := transistorCount % 0x10000;
      nodes := ns;
      on := new bool[|T.legTerm|](_ => false);
      changedQueue := new nat[T.nodeCount * 32](_ => 0);
      eating, feeding := 0, 0;
      group, groupValue := [], Nothing;
      changeOrder := [];
      new;
      assert nodes[..] == Initial(T, pullups).nodes;
      InitialIdle(T, pullups);
    }

    // ------------------------------------------------------------ change queue

    method ChangedPush(id: nat)
      requires Inv() && 1 <= id <= topo.nodeCount
      modifies this`feeding, nodes, changedQueue
      ensures Inv() && Abs() == Push(topo, old(Abs()), id)
    {
      if nodes[id].inChangelist {
        return;
      }
      RingPush(changedQueue[..], eating, feeding, id);
      changedQueue[feeding] := id;
      feeding := Next(feeding, changedQueue.Length);
      nodes[id] := nodes[id].(inChangelist := true);
    }

    method ChangedPop() returns (id: nat)
      requires Inv() && Abs().queue != []
      modifies this`eating
      ensures Inv()
      ensures id == old(Abs()).queue[0]
      ensures Abs() == old(Abs()).(queue := old(Abs()).queue[1..])
    {
      RingPop(changedQueue[..], eating, feeding);
      id := changedQueue[eating];
      eating := Next(eating, changedQueue.Length);
    }

    /** changed_is_empty: the iterators meet exactly when nothing is pending. */
    function ChangedIsEmpty(): (r: bool)
      reads this`eating, this`feeding, changedQueue
      requires Inv()
      ensures r <==> Abs().queue == []
    {
      eating == feeding
    }

    /** changed_clear: every pending id is dropped; the in_changelist marks stay as they are. */
    method ChangedClear()
      requires Inv()
      modifies this`feeding
      ensures Inv() && Abs() == old(Abs()).(queue := [])
    {
      feeding := eating;
    }

    // ------------------------------------------------------------ node helpers

    function NodeCount(): (n: nat)
      ensures n == topo.nodeCount
    {
      topo.nodeCount
    }

    function TransistorCount(): (n: nat)
      ensures n == transistorTotal
    {
      transistorTotal
    }

    /** get_node: the high flag of a real node, false for id 0 and ids past node_count. */
    function GetNode(id: nat): (high: bool)
      reads this`eating, this`feeding, changedQueue, nodes
      requires Inv()
      ensures high <==> 0 < id <= topo.nodeCount && nodes[id].high
      ensures high == Level(topo, Abs(), id)
    {
      if 0 < id <= NodeCount() then nodes[id].high else false
    }

    method SetNode(id: nat, high: bool)
      requires Valid()
      modifies this`feeding, nodes, changedQueue
      ensures Valid() && Abs() == NmosSpec.SetNode(topo, old(Abs()), id, high)
    {
      ghost var s0 := Abs();
      if 0 < id <= NodeCount() {
        var f := nodes[id];
        if f.pullup && !high {
          nodes[id] := f.(pullup := false, pulldown := true);
        } else if high && !f.pullup {
          nodes[id] := f.(pullup := true, pulldown := false);
        } else {
          return;
        }
        ChangedPush(id);
      }
      SetNodeIdle(topo, s0, id, high);
    }

    /** The levels of the given nodes, as get_node reports them. */
    function Levels(ids: seq<nat>): (bs: seq<bool>)
      reads this`eating, this`feeding, changedQueue, nodes
      requires Inv()
      ensures |bs| == |ids|
      ensures forall i :: 0 <= i < |ids| ==> bs[i] == GetNode(ids[i])
      decreases |ids|
    {
      if ids == [] then [] else Levels(ids[..|ids| - 1]) + [GetNode(ids[|ids| - 1])]
    }

    /** read_nodes: the node levels shifted into a 32-bit unsigned, first id highest. */
    function ReadNodes(ids: seq<nat>): (value: nat)
      reads this`eating, this`feeding, changedQueue, nodes
      requires Inv()
      ensures value < WORD
      ensures |ids| <= 32 ==> value == FromBits(Levels(ids)) && value < Pow2(|ids|)
      ensures |ids| <= 32 ==> forall i :: 0 <= i < |ids| ==> Bit(value, |ids| - 1 - i) == GetNode(ids[i])
    {
      var value := ShiftIn(Levels(ids));
      ShiftInIsFromBits(Levels(ids));
      forall i | 0 <= i < |ids| && |ids| <= 32
        ensures Bit(value, |ids| - 1 - i) == GetNode(ids[i])
      {
        FromBitsBit(Levels(ids), i);
      }
      value
    }

    /** write_nodes: the value is an `unsigned`; from the last id back, each id is set to the
        low bit of what is left of the value, which then shifts right. */
    method WriteNodes(ids: seq<nat>, value: nat)
      requires Valid() && value < WORD
      modifies this`feeding, nodes, changedQueue
      ensures Valid() && Abs() == NmosSpec.WriteNodes(topo, old(Abs()), ids, value)
    {
      var k := |ids|;
      var v := value;
      assert ids[..k] == ids;
      while k > 0
        invariant 0 <= k <= |ids|
        invariant Valid()
        invariant NmosSpec.WriteNodes(topo, Abs(), ids[..k], v) == NmosSpec.WriteNodes(topo, old(Abs()), ids, value)
      {
        assert ids[..k][..k - 1] == ids[..k - 1];
        SetNode(ids[k - 1], v % 2 == 1);
        v := v / 2;
        k := k - 1;
      }
    }
  
    // ------------------------------------------------------------ group

    /** The ids collected in current_group. */
    ghost function InGroup(): set<nat>
      reads this`group
    {
      SetOf(group)
    }

    /** While a group is being formed: its members are node ids. */
    ghost predicate Forming()
      reads this`eating, this`feeding, changedQueue, this`group
    {
      Inv() && AllIds(topo, group)
    }

    /** ... and the in_group marks are exactly its members. */
    ghost predicate GroupInv()
      reads this`eating, this`feeding, changedQueue, this`group, nodes
    {
      Forming() && Marked(nodes[..], group)
    }

    /** group_add(id): the members the fill from id adds join the group, and the value takes
        the sentinels it reaches and the members' flag words. */
    method GroupAdd(id: nat, ghost bits: seq<bool>)
      requires GroupInv() && bits == on[..] && 1 <= id <= topo.nodeCount
      modifies this`group, this`groupValue, nodes
      ensures GroupInv()
      ensures Filled(old(group), old(nodes[..]), old(groupValue), Visit(topo, bits, old(InGroup()), id),
                     group, nodes[..], groupValue)
      decreases Universe(topo) - InGroup(), 1
    {
      if id == topo.ground {
        groupValue := Ground;
        assert nodes[..] == Join(nodes[..], []);
        assert group + [] == group;
      } else if id == topo.power {
        if groupValue != Ground {
          groupValue := Power;
        }
        assert nodes[..] == Join(nodes[..], []);
        assert group + [] == group;
      } else if !nodes[id].inGroup {
        MarkedFromAt(nodes[..], group, 0, id);
        GroupJoin(id, bits);
      } else {
        MarkedFromAt(nodes[..], group, 0, id);
        FilledNothing(group, nodes[..], groupValue, Walk([], false, false));
      }
    }

    /** The branch of group_add for an ordinary node not yet in the group: it joins, its
        flag word is folded into the value, and its sibling words are followed. */
    method GroupJoin(id: nat, ghost bits: seq<bool>)
      requires GroupInv() && bits == on[..] && Ordinary(topo, id) && id !in group
      modifies this`group, this`groupValue, nodes
      ensures GroupInv()
      ensures Filled(old(group), old(nodes[..]), old(groupValue), Visit(topo, bits, old(InGroup()), id),
                     group, nodes[..], groupValue)
      decreases Universe(topo) - InGroup(), 0
    {
      JoinOne(id);
      ghost var g1, n1, v1 := group, nodes[..], groupValue;
      assert id in Universe(topo);
      GroupAddSiblings(id, bits);
      FilledThen(old(group), old(nodes[..]), old(groupValue), Walk([id], false, false),
                 g1, n1, v1, VisitSibs(topo, bits, old(InGroup()) + {id}, id, 0),
                 group, nodes[..], groupValue);
    }

    /** The first part of that branch: node id alone joins the group. */
    method JoinOne(id: nat)
      requires GroupInv() && Ordinary(topo, id) && id !in group
      modifies this`group, this`groupValue, nodes
      ensures GroupInv()
      ensures InGroup() == old(InGroup()) + {id}
      ensures Filled(old(group), old(nodes[..]), old(groupValue), Walk([id], false, false),
                     group, nodes[..], groupValue)
    {
      ghost var nodes0 := nodes[..];
      ghost var v0 := groupValue;
      nodes[id] := Joined(nodes[id]);
      group := group + [id];
      UpdateValueDrive(groupValue, nodes[id]);
      groupValue := UpdateValue(groupValue, nodes[id]);
      assert DrivesOf(nodes0, [id]) == [Drive(nodes0[id])];
      assert [Drive(nodes0[id])][..0] == [];
      assert Drive(Joined(nodes0[id])) == Drive(nodes0[id]);
      assert MemberFold(v0, [Drive(nodes0[id])]) == UpdateValue(v0, Drive(nodes0[id]));
      assert nodes[..] == Join(nodes0, [id]);
      SetOfAppend(old(group), [id]);
      FilledMarked(old(group), nodes0, v0, Walk([id], false, false), group, nodes[..], groupValue);
    }

    /** The loop of group_add over the sibling words of a node that has just joined. */
    method GroupAddSiblings(id: nat, ghost bits: seq<bool>)
      requires GroupInv() && bits == on[..] && 1 <= id <= topo.nodeCount
      modifies this`group, this`groupValue, nodes
      ensures GroupInv()
      ensures Filled(old(group), old(nodes[..]), old(groupValue), VisitSibs(topo, bits, old(InGroup()), id, 0),
                     group, nodes[..], groupValue)
      decreases Universe(topo) - InGroup(), 4
    {
      var i := 0;
      ghost var acc := Walk([], false, false);
      FilledNothing(group, nodes[..], groupValue, acc);
      SiblingsStart(topo, bits, InGroup(), id);
      while i < |topo.siblings[id]|
        invariant 0 <= i <= |topo.siblings[id]|
        invariant GroupInv()
        invariant Filled(old(group), old(nodes[..]), old(groupValue), acc, group, nodes[..], groupValue)
        invariant SiblingsSoFar(topo, bits, old(InGroup()), InGroup(), id, i, acc)
      {
        ghost var g1, n1, v1, acc1, i1 := group, nodes[..], groupValue, acc, i;
        ghost var w := GroupAddSibling(id, i, bits);
        acc := Then(acc, w);
        i := i + 1;
        SiblingPass(topo, bits, old(InGroup()), id, i1, old(group), old(nodes[..]), old(groupValue), acc1,
                    g1, n1, v1, w, group, nodes[..], groupValue, acc, i, InGroup());
      }
      SiblingsDone(topo, bits, old(InGroup()), InGroup(), id, acc);
    }

    /** One pass of that loop: group_add on the far end of sibling word i of node id when its
        on-bit is set. */
    method GroupAddSibling(id: nat, i: nat, ghost bits: seq<bool>) returns (ghost w: Walk)
      requires GroupInv() && bits == on[..] && id <= topo.nodeCount && i < |topo.siblings[id]|
      modifies this`group, this`groupValue, nodes
      ensures GroupInv()
      ensures w == SiblingWalk(topo, bits, old(InGroup()), id, i)
      ensures Filled(old(group), old(nodes[..]), old(groupValue), w, group, nodes[..], groupValue)
      decreases Universe(topo) - InGroup(), 3
    {
      w := SiblingWalk(topo, bits, InGroup(), id, i);
      var e := topo.siblings[id][i];
      if on[e] {
        FollowSibling(topo.legTerm[e], bits, w);
      } else {
        FilledNothing(group, nodes[..], groupValue, w);
      }
    }

    /** A sibling word that is on: group_add on the node at its far end. */
    method FollowSibling(id: nat, ghost bits: seq<bool>, ghost w: Walk)
      requires GroupInv() && bits == on[..] && 1 <= id <= topo.nodeCount
      requires w == Visit(topo, bits, InGroup(), id)
      modifies this`group, this`groupValue, nodes
      ensures GroupInv()
      ensures Filled(old(group), old(nodes[..]), old(groupValue), w, group, nodes[..], groupValue)
      decreases Universe(topo) - InGroup(), 2
    {
      GroupAdd(id, bits);
    }

    /** group_setup(id): an empty group with value `nothing`, then the fill from id. */
    method GroupSetup(id: nat)
      requires Inv() && Marked(nodes[..], []) && 1 <= id <= topo.nodeCount
      modifies this`group, this`groupValue, nodes
      ensures GroupInv()
      ensures var w := Visit(topo, on[..], {}, id);
        && group == w.members
        && nodes[..] == Join(old(nodes[..]), w.members)
        && groupValue == GroupValue(w.ground, w.power, DrivesOf(old(nodes[..]), w.members))
    {
      group := [];
      groupValue := Nothing;
      assert SetOf([]) == {};
      GroupAdd(id, on[..]);
      ghost var w := Visit(topo, on[..], {}, id);
      assert [] + w.members == w.members;
      AbsorbFromNothing(w, DrivesOf(old(nodes[..]), w.members));
    }

    /** is_group_empty: group_tail is back at the start of current_group. */
    function IsGroupEmpty(): (r: bool)
      reads this`group
      ensures r <==> |group| == 0
    {
      group == []
    }

    /** group_pop: the member that joined last leaves the buffer and loses its in_group mark. */
    method GroupPop() returns (id: nat)
      requires Forming() && group != []
      modifies this`group, nodes
      ensures Forming()
      ensures id == old(group)[|old(group)| - 1] && group == old(group)[..|old(group)| - 1]
      ensures nodes[..] == old(nodes[..])[id := old(nodes[id]).(inGroup := false)]
    {
      id := group[|group| - 1];
      group := group[..|group| - 1];
      nodes[id] := nodes[id].(inGroup := false);
    }

    // ------------------------------------------------------------ propagation

    /** add_ordered_change: one more id collected in change_order. */
    method AddOrderedChange(id: nat)
      modifies this`changeOrder
      ensures changeOrder == old(changeOrder) + [id]
    {
      changeOrder := changeOrder + [id];
    }

    /** commit_ordered_changes: the heap is drained smallest id first into the change queue. */
    method CommitOrderedChanges()
      requires Inv() && AllIds(topo, changeOrder)
      modifies this`feeding, nodes, changedQueue, this`changeOrder
      ensures Inv() && changeOrder == []
      ensures AllIds(topo, Sorted(old(changeOrder)))
      ensures Abs() == PushAll(topo, old(Abs()), Sorted(old(changeOrder)))
    {
      CommitStart(topo, Abs(), changeOrder);
      while changeOrder != []
        invariant Inv()
        invariant Committing(topo, old(Abs()), old(changeOrder), Abs(), changeOrder)
        decreases |changeOrder|
      {
        CommitOne(old(Abs()), old(changeOrder));
      }
      CommitDone(topo, old(Abs()), old(changeOrder), Abs());
    }

    /** One pass of that loop: std::pop_heap brings a least id out, and it is pushed. */
    method CommitOne(ghost s0: State, ghost all: seq<nat>)
      requires Inv() && changeOrder != [] && Committing(topo, s0, all, Abs(), changeOrder)
      modifies this`feeding, nodes, changedQueue, this`changeOrder
      ensures Inv() && |changeOrder| < |old(changeOrder)|
      ensures Committing(topo, s0, all, Abs(), changeOrder)
    {
      var k := ArgMin(changeOrder);
      var x := changeOrder[k];
      CommitStep(topo, s0, all, Abs(), changeOrder);
      changeOrder := RemoveAt(changeOrder, k);
      ChangedPush(x);
    }

    /** The branch of recalc_node for a member whose level differs from v: the level flips,
        both on-bits of each transistor it gates toggle, and the terminals those transistors
        name are collected and then pushed smallest first. */
    method FlipMember(m: nat, v: bool)
      requires Inv() && 1 <= m <= topo.nodeCount
      modifies this`feeding, nodes, on, changedQueue, this`changeOrder
      ensures Inv() && changeOrder == []
      ensures Abs() == Flip(topo, old(Abs()), v, m)
    {
      ghost var s := Abs();
      nodes[m] := nodes[m].(high := !nodes[m].high);
      ghost var flipped := nodes[..];
      assert flipped == s.nodes[m := s.nodes[m].(high := !s.nodes[m].high)];
      var lo, hi := topo.gateStart[m], topo.gateStart[m + 1];
      assert lo <= hi <= topo.gateStart[topo.nodeCount + 1];
      changeOrder := [];
      var t := lo;
      while t < hi
        invariant lo <= t <= hi
        invariant on[..] == ToggleRange(s.on, lo, t)
        invariant nodes[..] == flipped && changeOrder == Adds(topo, flipped, v, lo, t)
        modifies on, this`changeOrder
      {
        t := ToggleGate(t, v, lo, s.on);
      }
      ghost var f := Abs();
      assert f == State(flipped, ToggleRange(s.on, lo, hi), s.queue);
      FlipAfterLoop(topo, s, v, m, f, changeOrder);
      ghost var adds := changeOrder;
      CommitOrderedChanges();
      assert Abs() == PushAll(topo, f, Sorted(adds)) == Flip(topo, s, v, m);
    }

    /** One pass of that loop, on transistor t: both on-bits toggled, then the terminal ids
        the new state calls for collected. */
    method ToggleGate(t: nat, v: bool, ghost lo: nat, ghost on0: seq<bool>) returns (next: nat)
      requires Inv() && lo <= t < topo.gateStart[topo.nodeCount + 1] && |on0| == on.Length
      requires on[..] == ToggleRange(on0, lo, t)
      requires changeOrder == Adds(topo, nodes[..], v, lo, t)
      modifies on, this`changeOrder
      ensures next == t + 1
      ensures on[..] == ToggleRange(on0, lo, next)
      ensures changeOrder == Adds(topo, nodes[..], v, lo, next)
    {
      ToggleStep(on0, lo, t);
      on[2 * t] := !on[2 * t];
      on[2 * t + 1] := !on[2 * t + 1];
      var c1, c2 := topo.legTerm[2 * t], topo.legTerm[2 * t + 1];
      if v {
        if nodes[c1].high != nodes[c2].high {
          if c1 != topo.power && c1 != topo.ground {
            AddOrderedChange(c1);
          } else {
            AddOrderedChange(c2);
          }
        }
      } else {
        AddOrderedChange(c1);
        AddOrderedChange(c2);
      }
      next := t + 1;
    }

    /** recalc_node(id): nothing unless id is pending; otherwise its mark is cleared, its
        group is formed and every member is brought to the group's level. */
    method RecalcNode(id: nat)
      requires Valid() && 1 <= id <= topo.nodeCount
      modifies this`feeding, nodes, on, changedQueue, this`group, this`groupValue, this`changeOrder
      ensures Valid() && Abs() == NmosSpec.Recalc(topo, old(Abs()), id)
    {
      RecalcIdle(topo, Abs(), id);
      MarkedIff(nodes[..], []);
      if nodes[id].inChangelist {
        RecalcPendingNode(id);
      }
    }

    /** The part of recalc_node after the check that id is pending. */
    method RecalcPendingNode(id: nat)
      requires Inv() && group == [] && changeOrder == [] && Marked(nodes[..], [])
      requires 1 <= id <= topo.nodeCount && nodes[id].inChangelist
      modifies this`feeding, nodes, on, changedQueue, this`group, this`groupValue, this`changeOrder
      ensures Inv() && group == [] && changeOrder == []
      ensures Abs() == NmosSpec.Recalc(topo, old(Abs()), id)
    {
      var high := FormGroup(id);
      PopGroup(high, NmosSpec.Recalc(topo, old(Abs()), id));
    }

    /** The start of that part: the mark cleared, the group formed and its level read. */
    method FormGroup(id: nat) returns (high: bool)
      requires Inv() && group == [] && Marked(nodes[..], [])
      requires 1 <= id <= topo.nodeCount && nodes[id].inChangelist
      modifies nodes, this`group, this`groupValue
      ensures Forming()
      ensures Propagate(topo, Abs(), high, group) == NmosSpec.Recalc(topo, old(Abs()), id)
    {
      RecalcPending(topo, Abs(), id);
      nodes[id] := nodes[id].(inChangelist := false);
      MarkedFromFlag(old(nodes[..]), id, false);
      GroupSetup(id);
      high := GetValue(groupValue);
    }

    /** The member loop of recalc_node: pop until the group buffer is empty. */
    method PopGroup(high: bool, ghost target: State)
      requires Forming() && changeOrder == []
      requires Propagate(topo, Abs(), high, group) == target
      modifies this`feeding, nodes, on, changedQueue, this`group, this`changeOrder
      ensures Inv() && group == [] && changeOrder == [] && Abs() == target
    {
      while !IsGroupEmpty()
        invariant Forming() && changeOrder == []
        invariant Propagate(topo, Abs(), high, group) == target
        decreases |group|
      {
        RecalcMember(high, target);
      }
    }

    /** One pass of the member loop of recalc_node: the last member is popped, and flipped
        when its level differs from the group's. */
    method RecalcMember(high: bool, ghost target: State)
      requires Forming() && changeOrder == [] && group != []
      requires Propagate(topo, Abs(), high, group) == target
      modifies this`feeding, nodes, on, changedQueue, this`group, this`changeOrder
      ensures Forming() && changeOrder == [] && |group| < |old(group)|
      ensures Propagate(topo, Abs(), high, group) == target
    {
      ghost var s := Abs();
      ghost var ms := group;
      var m := GroupPop();
      PropagateLast(topo, s, high, ms, Abs());
      if nodes[m].high != high {
        FlipMember(m, high);
      }
    }

    // ------------------------------------------------------------ drain loops

    /** recalc_nodes: pending ids are taken off the queue in FIFO order and recalculated.  At
        most `fuel` ids are taken; drained tells whether the queue ran empty. */
    method RecalcNodes(fuel: nat) returns (drained: bool)
      requires Valid()
      modifies this`eating, this`feeding, nodes, on, changedQueue, this`group, this`groupValue, this`changeOrder
      ensures Valid() && Abs() == Run(topo, old(Abs()), fuel)
      ensures drained <==> Abs().queue == []
    {
      var k := fuel;
      while k > 0 && !ChangedIsEmpty()
        invariant Valid() && Run(topo, Abs(), k) == Run(topo, old(Abs()), fuel)
        decreases k
      {
        k := RecalcFirst(k, Run(topo, old(Abs()), fuel));
      }
      drained := ChangedIsEmpty();
    }

    /** One pass of that loop: the head of the queue is popped and recalculated. */
    method RecalcFirst(k: nat, ghost target: State) returns (k': nat)
      requires Valid() && k > 0 && Abs().queue != [] && Run(topo, Abs(), k) == target
      modifies this`eating, this`feeding, nodes, on, changedQueue, this`group, this`groupValue, this`changeOrder
      ensures Valid() && k' == k - 1 && Run(topo, Abs(), k') == target
    {
      ghost var s := Abs();
      ghost var s1 := s.(queue := s.queue[1..]);
      RunStep(topo, s, k);
      PopIdle(topo, s);
      var id := ChangedPop();
      assert Abs() == s1 && id == s.queue[0];
      RecalcNode(id);
      assert Abs() == NmosSpec.Recalc(topo, s1, id);
      k' := k - 1;
    }

    /** recalc: the drain loop alone. */
    method Recalc(fuel: nat) returns (drained: bool)
      requires Valid()
      modifies this`eating, this`feeding, nodes, on, changedQueue, this`group, this`groupValue, this`changeOrder
      ensures Valid() && Abs() == Run(topo, old(Abs()), fuel)
      ensures drained <==> Abs().queue == []
    {
      drained := RecalcNodes(fuel);
    }

    /** stabilize_network: every id from 1 to node_count is pushed, in increasing order, and
        the queue is drained.  The counter is a uint16_t, so the loop only ends when
        node_count is below 65535. */
    method StabilizeNetwork(fuel: nat) returns (drained: bool)
      requires Valid() && NodeCount() < 0xFFFF
      modifies this`eating, this`feeding, nodes, on, changedQueue, this`group, this`groupValue, this`changeOrder
      ensures Valid()
      ensures Abs() == Run(topo, PushAll(topo, old(Abs()), Range(1, topo.nodeCount + 1)), fuel)
      ensures drained <==> Abs().queue == []
    {
      var i := 1;
      while i <= NodeCount()
        invariant 1 <= i <= topo.nodeCount + 1
        invariant Valid() && AllIds(topo, Range(1, i))
        invariant Abs() == PushAll(topo, old(Abs()), Range(1, i))
      {
        ghost var s, i1 := Abs(), i;
        ChangedPush(i);
        i := i + 1;
        PushAllStep(topo, old(Abs()), s, Abs(), i1, i);
      }
      ghost var pushed := Abs();
      assert pushed == PushAll(topo, old(Abs()), Range(1, topo.nodeCount + 1));
      drained := RecalcNodes(fuel);
    }
  }
}

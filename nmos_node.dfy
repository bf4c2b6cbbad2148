/** Node flag words and the value of a group of connected nodes (src/nmos.cc, src/nmos.h). */
module NmosNode {

  /** The flag word of one node (node_flags): drive bias, resolved level and the two
      transient membership marks, as explicit booleans instead of packed bits. */
  datatype Flags = Flags(pullup: bool, pulldown: bool, high: bool, inChangelist: bool, inGroup: bool)

  /** The part of a flag word the group value looks at, with the membership marks cleared. */
  function Drive(f: Flags): Flags {
    Flags(f.pullup, f.pulldown, f.high, false, false)
  }

  /** The possible outcomes of resolving a group (group_contains). */
  datatype GroupContains = Nothing | High | Pullup | Pulldown | Power | Ground

  /** group_update_value: the `switch` on the current value, with its fall-through from
      `nothing` into `pullup` into `pulldown`, and `high`, `power`, `ground` absorbing. */
  function UpdateValue(v: GroupContains, f: Flags): (r: GroupContains)
    ensures v == High || v == Pulldown || v == Power || v == Ground ==> r == v
    ensures v == Pullup ==> (r == Pulldown <==> f.pulldown) && (r == Pullup <==> !f.pulldown)
    ensures v == Nothing ==>
      && (r == Pulldown <==> f.pulldown)
      && (r == Pullup <==> f.pullup && !f.pulldown)
      && (r == High <==> f.high && !f.pullup && !f.pulldown)
      && (r == Nothing <==> !f.high && !f.pullup && !f.pulldown)
  {
    match v
    case Nothing =>
      var afterHigh := if f.high then High else Nothing;
      var afterPullup := if f.pullup then Pullup else afterHigh;
      if f.pulldown then Pulldown else afterPullup
    case Pullup =>
      if f.pulldown then Pulldown else Pullup
    case Pulldown => Pulldown
    case _ => v
  }

  /** Only the drive bits and the stored level of a member matter to the group value. */
  lemma UpdateValueDrive(v: GroupContains, f: Flags)
    ensures UpdateValue(v, f) == UpdateValue(v, Drive(f))
  {
  }

  /** group_get_value: the level a resolved group takes. */
  function GetValue(v: GroupContains): (r: bool)
    ensures r <==> v in {Power, Pullup, High}
  {
    match v
    case Power => true
    case Pullup => true
    case High => true
    case Nothing => false
    case Pulldown => false
    case Ground => false
  }

  /** The value after feeding the members' flag words, in the order they joined the group,
      to group_update_value. */
  function MemberFold(v: GroupContains, fs: seq<Flags>): (r: GroupContains)
    ensures v != Ground ==> r != Ground
    ensures v != Power ==> r != Power
    ensures v == High || v == Pulldown || v == Power || v == Ground ==> r == v
    decreases |fs|
  {
    if fs == [] then v else UpdateValue(MemberFold(v, fs[..|fs| - 1]), fs[|fs| - 1])
  }

  /** The value group_add leaves behind for a group that started from `nothing`, whose
      members have the flag words `fs` (in joining order), and in whose flood fill the
      ground and the power sentinel were or were not reached. */
  function GroupValue(hitGround: bool, hitPower: bool, fs: seq<Flags>): GroupContains {
    if hitGround then Ground else if hitPower then Power else MemberFold(Nothing, fs)
  }

  /** Adding one more member to the group is one more group_update_value step. */
  lemma GroupValueAppend(hitGround: bool, hitPower: bool, fs: seq<Flags>, f: Flags)
    ensures GroupValue(hitGround, hitPower, fs + [f]) == UpdateValue(GroupValue(hitGround, hitPower, fs), f)
  {
    assert (fs + [f])[..|fs|] == fs;
  }

  /** Folding two runs of members one after the other. */
  lemma {:induction false} MemberFoldAppend(v: GroupContains, a: seq<Flags>, b: seq<Flags>)
    ensures MemberFold(v, a + b) == MemberFold(MemberFold(v, a), b)
    decreases |b|
  {
    if b == [] {
      assert a + b == a;
    } else {
      assert (a + b)[..|a + b| - 1] == a + b[..|b| - 1];
      MemberFoldAppend(v, a, b[..|b| - 1]);
    }
  }

  /** Reaching ground sets `ground`; reaching power sets `power` unless the value is already `ground`. */
  lemma GroupValueSentinel(hitGround: bool, hitPower: bool, fs: seq<Flags>)
    ensures GroupValue(true, hitPower, fs) == Ground
    ensures GroupValue(hitGround, true, fs)
         == (if GroupValue(hitGround, hitPower, fs) == Ground then Ground else Power)
  {
  }

  /** Index of the first member whose flag word has a drive or a stored high, |fs| if none. */
  function FirstFlagged(fs: seq<Flags>): (k: nat)
    ensures k <= |fs|
    ensures forall i :: 0 <= i < k ==> !fs[i].high && !fs[i].pullup && !fs[i].pulldown
    ensures k < |fs| ==> fs[k].high || fs[k].pullup || fs[k].pulldown
  {
    if fs == [] then 0
    else if fs[0].high || fs[0].pullup || fs[0].pulldown then 0
    else 1 + FirstFlagged(fs[1..])
  }

  /** Some member after index k has its pulldown flag set. */
  predicate LaterPulldown(fs: seq<Flags>, k: nat) {
    exists i :: k < i < |fs| && fs[i].pulldown
  }

  /** The value the fall-through switch reaches over a whole group that has no sentinel in it,
      stated without the switch: the first member that has any flag decides, and only a
      first `pullup` can still be overridden, by a later `pulldown`. */
  function FirstFlagDecides(fs: seq<Flags>): GroupContains {
    var k := FirstFlagged(fs);
    if k == |fs| then Nothing
    else if fs[k].pulldown then Pulldown
    else if fs[k].pullup then (if LaterPulldown(fs, k) then Pulldown else Pullup)
    else High
  }

  /** The fold of group_update_value from `nothing` is FirstFlagDecides.  In particular a
      first flagged member that is undriven but stored high wins over every later drive. */
  lemma {:induction false} MemberFoldFromNothing(fs: seq<Flags>)
    ensures MemberFold(Nothing, fs) == FirstFlagDecides(fs)
    decreases |fs|
  {
    if fs != [] {
      var init := fs[..|fs| - 1];
      var last := fs[|fs| - 1];
      MemberFoldFromNothing(init);
      FirstFlaggedPrefix(fs);
      var k0 := FirstFlagged(init);
      assert MemberFold(Nothing, fs) == UpdateValue(FirstFlagDecides(init), last);
      if k0 < |init| {
        assert fs[k0] == init[k0];
        LaterPulldownSnoc(fs, k0);
      }
    }
  }

  /** A later pulldown in fs is one in its prefix or the last element. */
  lemma LaterPulldownSnoc(fs: seq<Flags>, k: nat)
    requires k < |fs| - 1
    ensures LaterPulldown(fs, k) <==> LaterPulldown(fs[..|fs| - 1], k) || fs[|fs| - 1].pulldown
  {
    var init := fs[..|fs| - 1];
    if LaterPulldown(fs, k) {
      var i :| k < i < |fs| && fs[i].pulldown;
      if i < |init| { assert init[i] == fs[i]; }
    }
    if LaterPulldown(init, k) {
      var i :| k < i < |init| && init[i].pulldown;
      assert fs[i] == init[i];
    }
  }

  /** FirstFlagged of a sequence agrees with FirstFlagged of the sequence without its last element. */
  lemma {:induction false} FirstFlaggedPrefix(fs: seq<Flags>)
    requires fs != []
    ensures var k0 := FirstFlagged(fs[..|fs| - 1]);
      if k0 < |fs| - 1 then FirstFlagged(fs) == k0
      else FirstFlagged(fs) == (if fs[|fs| - 1].high || fs[|fs| - 1].pullup || fs[|fs| - 1].pulldown
                                then |fs| - 1 else |fs|)
    decreases |fs|
  {
    if |fs| > 1 {
      FirstFlaggedPrefix(fs[1..]);
      assert fs[1..][..|fs[1..]| - 1] == fs[..|fs| - 1][1..];
    }
  }

  /** The written switch is not the priority order "pulldown over pullup over stored high":
      a floating member that still holds a high level, reached before a pulled-down member,
      makes the whole group high. */
  lemma StoredHighMasksPulldown()
    ensures var floatingHigh := Flags(false, false, true, false, true);
      var pulledDown := Flags(false, true, false, false, true);
      && GroupValue(false, false, [floatingHigh, pulledDown]) == High
      && GetValue(GroupValue(false, false, [floatingHigh, pulledDown]))
      && GroupValue(false, false, [pulledDown, floatingHigh]) == Pulldown
  {
    var floatingHigh := Flags(false, false, true, false, true);
    var pulledDown := Flags(false, true, false, false, true);
    assert [floatingHigh, pulledDown][..1] == [floatingHigh];
    assert [pulledDown, floatingHigh][..1] == [pulledDown];
    assert [floatingHigh][..0] == [] && [pulledDown][..0] == [];
    assert MemberFold(Nothing, [floatingHigh]) == High;
    assert MemberFold(Nothing, [pulledDown]) == Pulldown;
  }
}

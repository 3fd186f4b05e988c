/** The fourteen steps of a turn and the cyclic successor used by the turn
    sequencer (phases.py). Each step is the integer it is declared with, 1 to
    14; the order is the enumeration's declaration order, and the two extra
    sub-steps sit between declaring blockers and combat damage (rules 509.2
    and 510.1c of the Magic: The Gathering Comprehensive Rules). */
module Phases {

  /** Number of members of the enumeration. */
  const Count: int := 14

  /** A member of the enumeration, identified with its declared value. */
  newtype Phase = v: int | 1 <= v <= 14 witness 1

  const UntapStep: Phase := 1
  const UpkeepStep: Phase := 2
  const DrawStep: Phase := 3
  const MainPhasePreCombat: Phase := 4
  const BeginningOfCombatStep: Phase := 5
  const DeclareAttackersStep: Phase := 6
  const DeclareBlockersStep: Phase := 7
  const DeclareBlockersStep509_2: Phase := 8
  const CombatDamageStep510_1c: Phase := 9
  const CombatDamageStep: Phase := 10
  const EndOfCombatStep: Phase := 11
  const MainPhasePostCombat: Phase := 12
  const EndStep: Phase := 13
  const CleanupStep: Phase := 14

  /** The members in declaration order, as listing the enumeration yields them: the
      i-th declared member has value i + 1. */
  function Members(): (m: seq<Phase>)
    ensures |m| == Count
  {
    seq(Count, Declared)
  }

  /** The member declared at position i. */
  function Declared(i: int): Phase
    requires 0 <= i < Count
  {
    (i + 1) as Phase
  }

  /** The member list is the fourteen members in the order phases.py
      declares them. */
  lemma MembersAsDeclared()
    ensures Members() == [
      UntapStep, UpkeepStep, DrawStep, MainPhasePreCombat, BeginningOfCombatStep,
      DeclareAttackersStep, DeclareBlockersStep, DeclareBlockersStep509_2,
      CombatDamageStep510_1c, CombatDamageStep, EndOfCombatStep,
      MainPhasePostCombat, EndStep, CleanupStep]
  {
  }

  /** The position of the first occurrence of `p` in `s`. */
  function Position(s: seq<Phase>, p: Phase): (i: nat)
    requires p in s
    ensures i < |s|
  {
    if s[0] == p then 0 else 1 + Position(s[1..], p)
  }

  /** `Phases.next`: the member after `p` in declaration order, wrapping from
      the last member back to the first. */
  function Next(p: Phase): Phase
  {
    assert Members()[p as int - 1] == p;
    var index := Position(Members(), p) + 1;
    if index >= |Members()| then Members()[0] else Members()[index]
  }

  /** The member before `p`, wrapping from the first to the last. */
  function Prev(p: Phase): Phase
  {
    assert Members()[p as int - 1] == p;
    var index := Position(Members(), p);
    if index == 0 then Members()[|Members()| - 1] else Members()[index - 1]
  }

  /** `p` advanced by `Next` `k` times. */
  function Iterate(p: Phase, k: nat): Phase
  {
    if k == 0 then p else Next(Iterate(p, k - 1))
  }

  /** The members are listed in increasing order of their values: the member
      at position i is i + 1, so every phase is listed exactly once. */
  lemma MembersInOrder()
    ensures |Members()| == Count
    ensures forall i :: 0 <= i < |Members()| ==> Members()[i] as int == i + 1
    ensures forall p: Phase :: p in Members()
  {
    forall p: Phase ensures p in Members() {
      assert Members()[p as int - 1] == p;
    }
  }

  /** The position of a phase in the member list is its value minus one. */
  lemma PositionIsValue(p: Phase)
    ensures p in Members() && Position(Members(), p) == p as int - 1
  {
    MembersInOrder();
    PositionFirst(Members(), p);
  }

  /** `Position` finds `p`, and no earlier occurrence of it. */
  lemma {:induction false} PositionFirst(s: seq<Phase>, p: Phase)
    requires p in s
    ensures s[Position(s, p)] == p
    ensures forall j :: 0 <= j < Position(s, p) ==> s[j] != p
  {
    if s[0] != p {
      PositionFirst(s[1..], p);
    }
  }

  /** For a phase below the last, `Next` yields the phase whose value is one
      more; the last phase wraps to the first. */
  lemma NextValue(p: Phase)
    ensures p as int < Count ==> Next(p) as int == p as int + 1
    ensures p as int == Count ==> Next(p) == UntapStep
  {
    PositionIsValue(p);
    MembersInOrder();
  }

  /** The cleanup step is followed by the untap step. */
  lemma CleanupWrapsToUntap()
    ensures Next(CleanupStep) == UntapStep
  {
    NextValue(CleanupStep);
  }

  /** `Prev` undoes `Next` and `Next` undoes `Prev`, so `Next` is a bijection
      on the fourteen phases. */
  lemma NextIsBijection(p: Phase)
    ensures Prev(Next(p)) == p
    ensures Next(Prev(p)) == p
  {
    MembersInOrder();
    PositionIsValue(p);
    PositionIsValue(Next(p));
    PositionIsValue(Prev(p));
  }

  /** No phase is its own successor. */
  lemma NextHasNoFixedPoint(p: Phase)
    ensures Next(p) != p
  {
    NextValue(p);
  }

  /** After k steps from p, the position in the cycle has advanced by k
      modulo fourteen. */
  lemma IterateValue(p: Phase, k: nat)
    ensures Iterate(p, k) as int - 1 == (p as int - 1 + k) % Count
  {
    var walk := seq(k + 1, j requires 0 <= j <= k => Iterate(p, j) as int - 1);
    forall j | 0 <= j < k
      ensures Steps(walk[j], walk[j + 1])
    {
      IterateStep(p, j + 1);
    }
    CycleCount(walk);
    assert walk[0] == p as int - 1 && walk[k] == Iterate(p, k) as int - 1;
  }

  /** One step around a cycle of `Count` positions. */
  predicate Steps(v: int, w: int)
  {
    (v < Count - 1 ==> w == v + 1) && (v == Count - 1 ==> w == 0)
  }

  /** Along a walk that starts on the cycle and moves one position at a time,
      the j-th position is j further on, modulo `Count`. */
  lemma {:induction false} CycleCount(walk: seq<int>)
    requires |walk| > 0 && 0 <= walk[0] < Count
    requires forall j :: 0 <= j < |walk| - 1 ==> Steps(walk[j], walk[j + 1])
    ensures walk[|walk| - 1] == (walk[0] + (|walk| - 1)) % Count
  {
    if |walk| > 1 {
      var init := walk[..|walk| - 1];
      CycleCount(init);
      assert Steps(walk[|walk| - 2], walk[|walk| - 1]);
    }
  }

  /** Each application of `Next` moves one position around the cycle. */
  lemma IterateStep(p: Phase, k: nat)
    requires k > 0
    ensures Steps(Iterate(p, k - 1) as int - 1, Iterate(p, k) as int - 1)
  {
    NextValue(Iterate(p, k - 1));
  }

  /** k steps return to the starting phase exactly when k is a multiple of
      fourteen: fourteen steps come back, and no positive number fewer does. */
  lemma {:induction false} IteratePeriod(p: Phase, k: nat)
    ensures Iterate(p, k) == p <==> k % Count == 0
  {
    IterateValue(p, k);
    ShiftModCount(p as int - 1, k);
  }

  /** Shifting a position a < `Count` by k lands on a again exactly when k is
      a multiple of `Count`. */
  lemma ShiftModCount(a: nat, k: nat)
    requires a < Count
    ensures (a + k) % Count == a <==> k % Count == 0
  {
  }

  /** The two rule-509.2 and rule-510.1c sub-steps come, in that order,
      strictly between declaring blockers and combat damage. */
  lemma CombatSubStepsOrder()
    ensures Next(DeclareBlockersStep) == DeclareBlockersStep509_2
    ensures Next(DeclareBlockersStep509_2) == CombatDamageStep510_1c
    ensures Next(CombatDamageStep510_1c) == CombatDamageStep
  {
    NextValue(DeclareBlockersStep);
    NextValue(DeclareBlockersStep509_2);
    NextValue(CombatDamageStep510_1c);
  }
}

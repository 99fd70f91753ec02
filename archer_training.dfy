/**
  The archery training AI (EntityAIArcherTraining): the archer picks
  targets from the archery building a bounded number of times per session
  (five per building level), draws its bow when the attack delay has run
  out, fires, and inspects the shot. Random choices of the building
  (target, shooting stand) and the outcome of the tool setup are inputs.
 */
module ArcherTraining {
  import opened Wrappers
  import opened Nbt

  /** The AI states these steps return or store. */
  datatype AIState = Idle | Decide | StartWorking | GoToTarget | ArcherSelectTarget | ArcherShoot | ArcherCheckShot

  const BUILDING_LEVEL_TARGET_MULTIPLIER: nat := 5
  const RANGED_ATTACK_DELAY_BASE: int := 10

  /** How many targets a session may select at a building level. */
  function TargetLimit(level: nat): nat
  {
    level * BUILDING_LEVEL_TARGET_MULTIPLIER
  }

  /** What selectTarget returns, and the counter and target it leaves. */
  datatype Selection = Selection(next: AIState, counter: int, target: Option<Pos>)

  /**
    selectTarget at building level `level`, `found` being the building's
    random shooting target (None when it has none): a session that used up
    its targets ends with the counter reset; otherwise a found target is
    stored and counted.
   */
  function Select(counter: int, target: Option<Pos>, level: nat, found: Option<Pos>): (r: Selection)
    ensures counter >= TargetLimit(level) ==> r == Selection(Decide, 0, target)
    ensures counter < TargetLimit(level) && found.None? ==> r == Selection(Decide, counter, target)
    ensures counter < TargetLimit(level) && found.Some? ==> r == Selection(ArcherShoot, counter + 1, found)
    ensures r.next == ArcherShoot <==> counter < TargetLimit(level) && found.Some?
    ensures 0 <= counter <= TargetLimit(level) ==> 0 <= r.counter <= TargetLimit(level)
  {
    if counter >= TargetLimit(level) then Selection(Decide, 0, target)
    else if found.None? then Selection(Decide, counter, target)
    else Selection(ArcherShoot, counter + 1, found)
  }

  /** Successive selectTarget calls on the given random picks: the states returned and the final counter. */
  function SelectRun(counter: int, level: nat, founds: seq<Option<Pos>>): (r: (seq<AIState>, int))
    ensures |r.0| == |founds|
    decreases |founds|
  {
    if founds == [] then ([], counter)
    else
      var s := Select(counter, None, level, founds[0]);
      var rest := SelectRun(s.counter, level, founds[1..]);
      ([s.next] + rest.0, rest.1)
  }

  /** Whatever the picks, a counter starting within the session limit stays within it. */
  lemma {:induction false} SelectRunBounded(counter: int, level: nat, founds: seq<Option<Pos>>)
    requires 0 <= counter <= TargetLimit(level)
    ensures 0 <= SelectRun(counter, level, founds).1 <= TargetLimit(level)
    decreases |founds|
  {
    if founds != [] {
      SelectRunBounded(Select(counter, None, level, founds[0]).counter, level, founds[1..]);
    }
  }

  /**
    With a target found every time, a session from counter `counter` shoots
    exactly TargetLimit(level) - counter times, then returns DECIDE with the
    counter reset.
   */
  lemma {:induction false} FullSession(counter: int, level: nat, founds: seq<Option<Pos>>)
    requires 0 <= counter <= TargetLimit(level)
    requires |founds| == TargetLimit(level) - counter + 1
    requires forall i :: 0 <= i < |founds| ==> founds[i].Some?
    ensures SelectRun(counter, level, founds) == (seq(TargetLimit(level) - counter, _ => ArcherShoot) + [Decide], 0)
    decreases TargetLimit(level) - counter
  {
    if counter < TargetLimit(level) {
      assert Select(counter, None, level, founds[0]) == Selection(ArcherShoot, counter + 1, founds[0]);
      FullSession(counter + 1, level, founds[1..]);
      var rest := SelectRun(counter + 1, level, founds[1..]);
      assert SelectRun(counter, level, founds) == ([ArcherShoot] + rest.0, rest.1);
      var n := TargetLimit(level) - counter;
      assert seq(n, _ => ArcherShoot) + [Decide] == [ArcherShoot] + (seq(n - 1, _ => ArcherShoot) + [Decide]);
    } else {
      assert founds[1..] == [];
      assert Select(counter, None, level, founds[0]) == Selection(Decide, 0, None);
      assert SelectRun(0, level, founds[1..]) == ([], 0);
      assert seq(0, _ => ArcherShoot) + [Decide] == [Decide] + [];
    }
  }

  /** The bow: the attack delay, whether the archer is drawing, and whether an arrow was fired. */
  datatype Bow = Bow(attackDelay: int, drawing: bool, arrowFired: bool)

  /** reduceAttackDelay: one tick off a positive delay. */
  function ReduceAttackDelay(d: int): (r: int)
    ensures d > 0 ==> r == d - 1
    ensures d <= 0 ==> r == d
  {
    if d > 0 then d - 1 else d
  }

  /**
    shoot: without a target or a working setup the AI goes back to work; a
    drawn bow fires, resets the delay to RANGED_ATTACK_DELAY_BASE and
    the shot is checked next; otherwise the delay runs down and the
    archer starts drawing once it is over.
   */
  function ShootStep(hasTarget: bool, setupOk: bool, b: Bow): (r: (AIState, Bow))
    ensures !hasTarget || !setupOk ==> r == (StartWorking, b)
    ensures hasTarget && setupOk && b.drawing ==> r == (ArcherCheckShot, Bow(RANGED_ATTACK_DELAY_BASE, false, true))
    ensures hasTarget && setupOk && !b.drawing ==>
      r.0 == ArcherShoot && r.1.attackDelay == ReduceAttackDelay(b.attackDelay) &&
      r.1.drawing == (r.1.attackDelay <= 0) && r.1.arrowFired == b.arrowFired
  {
    if !hasTarget || !setupOk then (StartWorking, b)
    else if b.drawing then (ArcherCheckShot, Bow(RANGED_ATTACK_DELAY_BASE, false, true))
    else
      var d := ReduceAttackDelay(b.attackDelay);
      (ArcherShoot, b.(attackDelay := d, drawing := d <= 0))
  }

  /** `n` successive shoot calls with a target and a working setup: the states returned and the final bow. */
  function ShootRun(b: Bow, n: nat): (r: (seq<AIState>, Bow))
    ensures |r.0| == n
    decreases n
  {
    if n == 0 then ([], b)
    else
      var s := ShootStep(true, true, b);
      var rest := ShootRun(s.1, n - 1);
      ([s.0] + rest.0, rest.1)
  }

  /** A bow that is not drawn, with `d` ticks of delay left, is drawn after `d` shoot calls. */
  lemma {:induction false} DelayRunsDown(d: int, fired: bool)
    requires d >= 1
    ensures ShootRun(Bow(d, false, fired), d as nat) == (seq(d, _ => ArcherShoot), Bow(0, true, fired))
    decreases d
  {
    assert ShootStep(true, true, Bow(d, false, fired)) == (ArcherShoot, Bow(d - 1, d - 1 <= 0, fired));
    if d > 1 {
      DelayRunsDown(d - 1, fired);
      assert seq(d, _ => ArcherShoot) == [ArcherShoot] + seq(d - 1, _ => ArcherShoot);
    } else {
      assert ShootRun(Bow(0, true, fired), 0) == ([], Bow(0, true, fired));
      assert seq(1, _ => ArcherShoot) == [ArcherShoot] + [];
    }
  }

  /** Between two shots the archer spends exactly RANGED_ATTACK_DELAY_BASE shoot calls aiming. */
  lemma ShotCycle(fired: bool)
    ensures ShootRun(Bow(RANGED_ATTACK_DELAY_BASE, false, fired), RANGED_ATTACK_DELAY_BASE as nat + 1)
         == (seq(RANGED_ATTACK_DELAY_BASE, _ => ArcherShoot) + [ArcherCheckShot], Bow(RANGED_ATTACK_DELAY_BASE, false, true))
  {
    ShootRunSplit(Bow(RANGED_ATTACK_DELAY_BASE, false, fired), RANGED_ATTACK_DELAY_BASE as nat, 1);
    DelayRunsDown(RANGED_ATTACK_DELAY_BASE, fired);
    var reset := Bow(RANGED_ATTACK_DELAY_BASE, false, true);
    assert ShootRun(reset, 0) == ([], reset);
    var second := ShootRun(Bow(0, true, fired), 1);
    assert second == ([ArcherCheckShot] + [], reset);
    assert [ArcherCheckShot] + [] == [ArcherCheckShot];
    assert ShootRun(Bow(RANGED_ATTACK_DELAY_BASE, false, fired), RANGED_ATTACK_DELAY_BASE as nat + 1)
        == (seq(RANGED_ATTACK_DELAY_BASE, _ => ArcherShoot) + second.0, second.1);
  }

  /** A run of m + n calls is a run of m calls followed by a run of n calls. */
  lemma {:induction false} ShootRunSplit(b: Bow, m: nat, n: nat)
    ensures var first := ShootRun(b, m);
      var second := ShootRun(first.1, n);
      ShootRun(b, m + n) == (first.0 + second.0, second.1)
    decreases m
  {
    if m > 0 {
      ShootRunSplit(ShootStep(true, true, b).1, m - 1, n);
      var s := ShootStep(true, true, b);
      var first := ShootRun(s.1, m - 1);
      var second := ShootRun(first.1, n);
      assert [s.0] + (first.0 + second.0) == ([s.0] + first.0) + second.0;
    } else {
      assert ShootRun(b, 0) == ([], b);
      assert [] + ShootRun(b, n).0 == ShootRun(b, n).0;
    }
  }

  class EntityAIArcherTraining {
    var targetCounter: int
    var currentShootingTarget: Option<Pos>
    var currentAttackDelay: int
    var stateAfterPathing: AIState
    var currentPathingTarget: Option<Pos>
    /** worker.isUsingItem(): the bow is being drawn. */
    var usingItem: bool
    /** Whether arrowInProgress holds an arrow. */
    var arrowInProgress: bool

    constructor ()
      ensures targetCounter == 0 && currentShootingTarget.None? && !arrowInProgress
      ensures currentAttackDelay == 0 && !usingItem && currentPathingTarget.None? && stateAfterPathing == Idle
    {
      targetCounter := 0;
      currentShootingTarget := None;
      currentAttackDelay := 0;
      stateAfterPathing := Idle;
      currentPathingTarget := None;
      usingItem := false;
      arrowInProgress := false;
    }

    function BowState(): Bow
      reads this
    {
      Bow(currentAttackDelay, usingItem, arrowInProgress)
    }

    /** selectTarget; `found` is the building's random shooting target. */
    method SelectTarget(level: nat, found: Option<Pos>) returns (next: AIState)
      modifies this`targetCounter, this`currentShootingTarget
      ensures Selection(next, targetCounter, currentShootingTarget)
           == Select(old(targetCounter), old(currentShootingTarget), level, found)
    {
      if targetCounter >= level * BUILDING_LEVEL_TARGET_MULTIPLIER {
        targetCounter := 0;
        return Decide;
      }
      if found.None? {
        return Decide;
      }
      currentShootingTarget := found;
      targetCounter := targetCounter + 1;
      return ArcherShoot;
    }

    /** findShootingStandPosition; `stand` is the building's random shooting stand. */
    method FindShootingStandPosition(stand: Option<Pos>) returns (next: AIState)
      modifies this`stateAfterPathing, this`currentPathingTarget
      ensures stand.None? ==> next == Decide && unchanged(this)
      ensures stand.Some? ==> next == GoToTarget && stateAfterPathing == ArcherSelectTarget &&
                              currentPathingTarget == stand
    {
      if stand.None? {
        return Decide;
      }
      stateAfterPathing := ArcherSelectTarget;
      currentPathingTarget := stand;
      return GoToTarget;
    }

    method ReduceAttackDelayTick()
      modifies this`currentAttackDelay
      ensures currentAttackDelay == ReduceAttackDelay(old(currentAttackDelay))
    {
      if currentAttackDelay > 0 {
        currentAttackDelay := currentAttackDelay - 1;
      }
    }

    /** shoot; `setupOk` is what isSetup reports (a bow in the inventory). */
    method Shoot(setupOk: bool) returns (next: AIState)
      modifies this`currentAttackDelay, this`usingItem, this`arrowInProgress
      ensures (next, BowState()) == ShootStep(old(currentShootingTarget).Some?, setupOk, old(BowState()))
    {
      if currentShootingTarget.None? || !setupOk {
        return StartWorking;
      }
      if usingItem {
        usingItem := false;
        arrowInProgress := true;
        currentAttackDelay := RANGED_ATTACK_DELAY_BASE;
      } else {
        ReduceAttackDelayTick();
        if currentAttackDelay <= 0 {
          usingItem := true;
        }
        return ArcherShoot;
      }
      return ArcherCheckShot;
    }

    /**
      checkShot: the shot is judged (the experience it earns is not modelled)
      and a new target is selected next; None where the source dereferences
      a missing arrow or target.
     */
    method CheckShot() returns (next: Option<AIState>)
      ensures arrowInProgress && currentShootingTarget.Some? ==> next == Some(ArcherSelectTarget)
      ensures !(arrowInProgress && currentShootingTarget.Some?) ==> next == None
    {
      if !arrowInProgress || currentShootingTarget.None? {
        return None;
      }
      return Some(ArcherSelectTarget);
    }
  }
}

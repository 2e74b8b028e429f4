/**
 * The player's companion (ally.py `Ally`): stats scaled by rank from the
 * ally table, a target chosen among the enemies only, a wander that keeps
 * within 200 px of the player, the shared attack tree and teleport fireball
 * (every projectile on the player's side), damage intake and the map
 * wrap-around.
 */
module Allies {
  import opened Wrappers
  import opened Geometry
  import opened Settings
  import opened Projectiles
  import opened Characters

  // ------------------------------------------------------------------ stats

  /** The scaled entry the constructor copies into its fields. */
  datatype Profile = Profile(hp: int, speed: int, behavior: string, visionRadius: int,
                             meleeSkill: int, defenseSkill: int)

  /** `int(base * multiplier)`. */
  function Scale(base: int, m: real): int
  {
    Trunc(base as real * m)
  }

  /**
   * A non-negative base scaled by a multiplier of at least 1 never drops and
   * stays within one of the exact product; a larger multiplier never gives
   * less.
   */
  lemma ScaleBounds(base: int, m: real, m': real)
    requires base >= 0 && 1.0 <= m <= m'
    ensures base <= Scale(base, m) <= Scale(base, m')
    ensures Scale(base, m) as real <= base as real * m < Scale(base, m) as real + 1.0
  {
    assert base as real * m >= base as real * 1.0;
    assert base as real * m' >= base as real * m by {
      assert base as real * m' - base as real * m == base as real * (m' - m);
    }
    assert Trunc(base as real) == base;
    TruncMonotone(base as real, base as real * m);
    TruncMonotone(base as real * m, base as real * m');
  }

  lemma TruncMonotone(x: real, y: real)
    requires 0.0 <= x <= y
    ensures Trunc(x) <= Trunc(y)
  {
  }

  /**
   * The constructor's lookup: an unknown name raises ValueError; otherwise
   * hp, speed, vision radius and the two skills are the table's values
   * scaled by the rank multiplier.
   */
  function AllyProfile(name: string, r: Rank): (p: Result<Profile>)
    ensures p.Err? <==> AllyData(name).None?
    ensures p.Err? ==> p.error.ValueError?
    ensures p.Ok? ==> var d := AllyData(name).value;
      && d.hp <= p.value.hp && d.speed <= p.value.speed && d.visionRadius <= p.value.visionRadius
      && d.meleeSkill <= p.value.meleeSkill && d.defenseSkill <= p.value.defenseSkill
      && p.value.behavior == d.behavior
  {
    match AllyData(name)
    case None => Err(ValueError("Ally data for '" + name + "' not found."))
    case Some(d) =>
      var m := Multiplier(r);
      ScaleBounds(d.hp, m, m);
      ScaleBounds(d.speed, m, m);
      ScaleBounds(d.visionRadius, m, m);
      ScaleBounds(d.meleeSkill, m, m);
      ScaleBounds(d.defenseSkill, m, m);
      Ok(Profile(Scale(d.hp, m), Scale(d.speed, m), d.behavior, Scale(d.visionRadius, m),
                 Scale(d.meleeSkill, m), Scale(d.defenseSkill, m)))
  }

  /** Each stat is the table value times the multiplier, rounded toward zero. */
  lemma ProfileIsScaled(name: string, r: Rank)
    requires AllyData(name).Some?
    ensures var d := AllyData(name).value; var p := AllyProfile(name, r).value; var m := Multiplier(r);
      && p.hp as real <= d.hp as real * m < p.hp as real + 1.0
      && p.speed as real <= d.speed as real * m < p.speed as real + 1.0
      && p.visionRadius as real <= d.visionRadius as real * m < p.visionRadius as real + 1.0
      && p.meleeSkill as real <= d.meleeSkill as real * m < p.meleeSkill as real + 1.0
      && p.defenseSkill as real <= d.defenseSkill as real * m < p.defenseSkill as real + 1.0
  {
    var d := AllyData(name).value;
    var m := Multiplier(r);
    ScaleBounds(d.hp, m, m);
    ScaleBounds(d.speed, m, m);
    ScaleBounds(d.visionRadius, m, m);
    ScaleBounds(d.meleeSkill, m, m);
    ScaleBounds(d.defenseSkill, m, m);
  }

  /** A better rank never gives a weaker ally. */
  lemma ProfileMonotone(name: string, r: Rank, r': Rank)
    requires AllyData(name).Some? && Multiplier(r) <= Multiplier(r')
    ensures var p := AllyProfile(name, r).value; var p' := AllyProfile(name, r').value;
      && p.hp <= p'.hp && p.speed <= p'.speed && p.visionRadius <= p'.visionRadius
      && p.meleeSkill <= p'.meleeSkill && p.defenseSkill <= p'.defenseSkill
  {
    var d := AllyData(name).value;
    var m, m' := Multiplier(r), Multiplier(r');
    ScaleBounds(d.hp, m, m');
    ScaleBounds(d.speed, m, m');
    ScaleBounds(d.visionRadius, m, m');
    ScaleBounds(d.meleeSkill, m, m');
    ScaleBounds(d.defenseSkill, m, m');
  }

  // -------------------------------------------------------------- wrapping

  /**
   * One axis of `borderless`: past the far edge the near edge goes to 0;
   * before the near edge the far edge goes to the limit; otherwise nothing
   * moves.
   */
  function WrapAxis(lo: int, size: nat, limit: int): (lo': int)
    ensures lo + size > limit ==> lo' == 0
    ensures lo + size <= limit && lo < 0 ==> lo' + size == limit
    ensures 0 <= lo && lo + size <= limit ==> lo' == lo
  {
    if lo + size > limit then 0
    else if lo < 0 then limit - size
    else lo
  }

  /** After wrapping, a sprite that fits in the map lies wholly inside it. */
  lemma WrapKeepsInside(lo: int, size: nat, limit: int)
    requires size <= limit
    ensures 0 <= WrapAxis(lo, size, limit) && WrapAxis(lo, size, limit) + size <= limit
  {
  }

  /** `cast_insect_swarm_spell` releases this many swarms. */
  const SwarmSize: nat := 25

  // -------------------------------------------------------------- the class

  class Ally {
    const name: string
    const rank: Rank
    const multiplier: real
    const behavior: string
    const throwSpeed: real
    const maxHp: int
    const meleeSkill: int
    const defenseSkill: int
    const element: Option<Element>
    const ninjutsu: seq<string>

    var hp: real
    var speed: int
    var visionRadius: nat
    var rect: Rect
    /** The centre of the current target, if any. */
    var target: Option<Point>
    /** Seconds. */
    var lastAttackTime: real
    var action: Action
    var lastDirection: Dir
    var isDying: bool
    /** False once the sprite has been killed. */
    var alive: bool
    /** The corpse tile laid at death. */
    var deathTile: Option<Point>
    var knockedBack: bool
    var knockbackStart: int
    var knockbackVelocity: Vec
    var specialActive: bool
    var specialStage: nat
    var specialTimer: int
    var wanderTimer: int
    var wanderDuration: int
    var wanderStep: (int, int)
    var wanderAction: Action

    /** The teleport machine rests at stage 0 whenever it is not active. */
    ghost predicate Valid()
      reads this
    {
      && specialStage <= 2
      && (!specialActive ==> specialStage == 0)
      && multiplier == Multiplier(rank)
    }

    /**
     * The constructor: table stats scaled by rank with `max_hp == hp`, a
     * 64-pixel sprite centred on `pos` whose rect is then halved (keeping
     * its corner), as first target the nearest enemy within 5000 px (the
     * first of equally near ones), an element and its jutsu.
     */
    constructor (name: string, rank: Rank, pos: Point, enemies: seq<Point>, elementPick: nat, order: seq<nat>)
      requires AllyProfile(name, rank).Ok?
      requires elementPick < |Elements|
      requires HasElement(rank) ==> IsShuffle(order, 4)
      ensures Valid()
      ensures var p := AllyProfile(name, rank).value;
        && hp == p.hp as real && maxHp == p.hp && speed == p.speed && visionRadius == p.visionRadius
        && meleeSkill == p.meleeSkill && defenseSkill == p.defenseSkill && behavior == p.behavior
      ensures this.name == name && this.rank == rank && throwSpeed == 0.8 * Multiplier(rank)
      ensures rect == Rect(pos.x - 32, pos.y - 32, 32, 32)
      ensures target.Some? ==> target.value in enemies && DistSq(Point(pos.x - 16, pos.y - 16), target.value) < 5000 * 5000
      ensures target.Some? ==>
        exists k: nat :: IsClosest(Point(pos.x - 16, pos.y - 16), enemies, 5000, false, k) && target.value == enemies[k]
      ensures target.None? ==> forall k :: 0 <= k < |enemies| ==> DistSq(Point(pos.x - 16, pos.y - 16), enemies[k]) >= 5000 * 5000
      ensures element == AssignElement(rank, elementPick) && ninjutsu == AssignNinjutsu(rank, element, order)
      ensures lastAttackTime == 0.0 && action == Idle(Down) && lastDirection == Down
      ensures !isDying && alive && !knockedBack && !specialActive && specialStage == 0
      ensures wanderTimer == 0 && wanderDuration == 1000 && wanderStep == (0, 0) && wanderAction == Idling
    {
      var p := AllyProfile(name, rank).value;
      RankJutsu(rank, elementPick, order);
      var r := Rect(pos.x - 32, pos.y - 32, 32, 32);
      var found := ClosestIndex(r.Center(), enemies, 5000, false);
      assert found.Some? ==> IsClosest(r.Center(), enemies, 5000, false, found.value);
      this.name := name;
      this.rank := rank;
      this.multiplier := Multiplier(rank);
      this.behavior := p.behavior;
      this.throwSpeed := 0.8 * Multiplier(rank);
      this.maxHp := p.hp;
      this.meleeSkill := p.meleeSkill;
      this.defenseSkill := p.defenseSkill;
      this.element := AssignElement(rank, elementPick);
      this.ninjutsu := AssignNinjutsu(rank, AssignElement(rank, elementPick), order);
      this.hp := p.hp as real;
      this.speed := p.speed;
      this.visionRadius := p.visionRadius;
      this.rect := r;
      this.target := if found.Some? then Some(enemies[found.value]) else None;
      this.lastAttackTime := 0.0;
      this.action := Idle(Down);
      this.lastDirection := Down;
      this.isDying := false;
      this.alive := true;
      this.deathTile := None;
      this.knockedBack := false;
      this.knockbackStart := 0;
      this.knockbackVelocity := Vec(0.0, 0.0);
      this.specialActive := false;
      this.specialStage := 0;
      this.specialTimer := 0;
      this.wanderTimer := 0;
      this.wanderDuration := 1000;
      this.wanderStep := (0, 0);
      this.wanderAction := Idling;
    }

    /**
     * `find_closest_enemy(radius)`: only the enemies are scanned; one is
     * taken strictly inside `radius` and strictly nearer than the best so
     * far, so the first of equally near enemies wins. Nothing changes.
     */
    method FindClosestEnemy(enemies: seq<Point>, radius: nat) returns (found: Option<nat>)
      ensures found.None? <==> forall k :: 0 <= k < |enemies| ==> !InReach(DistSq(rect.Center(), enemies[k]), radius, false)
      ensures found.Some? ==> found.value < |enemies| && InReach(DistSq(rect.Center(), enemies[found.value]), radius, false)
      ensures found.Some? ==> forall k :: 0 <= k < |enemies| && InReach(DistSq(rect.Center(), enemies[k]), radius, false) ==>
        DistSq(rect.Center(), enemies[found.value]) <= DistSq(rect.Center(), enemies[k])
      ensures found.Some? ==> forall k :: 0 <= k < found.value ==>
        DistSq(rect.Center(), enemies[found.value]) < DistSq(rect.Center(), enemies[k])
      ensures found.Some? ==> IsClosest(rect.Center(), enemies, radius, false, found.value)
    {
      found := ClosestIndex(rect.Center(), enemies, radius, false);
    }

    /** `can_see_target`: a target within the vision radius, the circle included. */
    function CanSeeTarget(): (sees: bool)
      reads this
      ensures sees ==> target.Some?
    {
      target.Some? && InReach(DistSq(rect.Center(), target.value), visionRadius, true)
    }

    /**
     * The first line of `update`: the target becomes the nearest enemy
     * inside the vision radius, which the ally can therefore always see.
     */
    method Retarget(enemies: seq<Point>)
      modifies this`target
      ensures target.Some? ==> target.value in enemies && CanSeeTarget()
      ensures target.Some? ==>
        exists k: nat :: IsClosest(rect.Center(), enemies, visionRadius, false, k) && target.value == enemies[k]
      ensures target.None? <==>
        forall k :: 0 <= k < |enemies| ==> !InReach(DistSq(rect.Center(), enemies[k]), visionRadius, false)
    {
      var found := FindClosestEnemy(enemies, visionRadius);
      target := if found.Some? then Some(enemies[found.value]) else None;
      if found.Some? {
        assert IsClosest(rect.Center(), enemies, visionRadius, false, found.value);
      }
    }

    /**
     * `random_move`: farther than 200 px from the player the ally walks
     * straight toward the player and faces that way; otherwise it wanders
     * as a combatant does, re-rolling every 0.5 to 1 s (`newDuration`).
     */
    method RandomMove(now: int, dt: real, player: Point, playerDistance: real, walkDraw: real, pick: nat, newDuration: int)
      requires 0.0 <= playerDistance && playerDistance * playerDistance == DistSq(rect.Center(), player) as real
      requires pick < |Cardinals| && 500 <= newDuration <= 1000
      modifies this`wanderTimer, this`wanderDuration, this`wanderStep, this`wanderAction,
               this`lastDirection, this`rect, this`action
      ensures playerDistance > 200.0 ==>
        var c := old(rect).Center();
        var dx := player.x - c.x;
        var dy := player.y - c.y;
        && rect == Nudge(old(rect), StepToward(dx, dy, playerDistance, speed, dt))
        && action == Walk(Facing(dx as real, dy as real)) && lastDirection == Facing(dx as real, dy as real)
        && wanderTimer == old(wanderTimer) && wanderDuration == old(wanderDuration)
        && wanderStep == old(wanderStep) && wanderAction == old(wanderAction)
      ensures playerDistance <= 200.0 ==>
        var w := Reroll(walkDraw, pick, old(lastDirection));
        && (if now - old(wanderTimer) > old(wanderDuration) then
              && wanderTimer == now && wanderDuration == newDuration
              && wanderStep == w.step && wanderAction == w.action && lastDirection == w.facing
            else
              && wanderTimer == old(wanderTimer) && wanderDuration == old(wanderDuration)
              && wanderStep == old(wanderStep) && wanderAction == old(wanderAction)
              && lastDirection == old(lastDirection))
        && rect == Nudge(old(rect), Velocity(wanderStep, speed, dt))
        && action == wanderAction
    {
      if playerDistance > 200.0 {
        var c := rect.Center();
        var dx := player.x - c.x;
        var dy := player.y - c.y;
        rect := Nudge(rect, StepToward(dx, dy, playerDistance, speed, dt));
        var facing := Facing(dx as real / playerDistance, dy as real / playerDistance);
        UnitFacing(dx, dy, playerDistance);
        action := Walk(facing);
        lastDirection := facing;
      } else {
        if now - wanderTimer > wanderDuration {
          wanderTimer := now;
          wanderDuration := newDuration;
          var w := Reroll(walkDraw, pick, lastDirection);
          wanderStep := w.step;
          wanderAction := w.action;
          lastDirection := w.facing;
        }
        rect := Nudge(rect, Velocity(wanderStep, speed, dt));
        action := wanderAction;
      }
    }

    /**
     * `move`: the combatant bands with the ally's own wander. Within 40 px
     * of the target, or without one, nothing changes; otherwise the ally
     * ends up facing the target.
     */
    method Move(now: int, dt: real, distance: real, player: Point, playerDistance: real,
                walkDraw: real, pick: nat, newDuration: int)
      requires target.Some? ==> 0.0 <= distance && distance * distance == DistSq(rect.Center(), target.value) as real
      requires 0.0 <= playerDistance && playerDistance * playerDistance == DistSq(rect.Center(), player) as real
      requires pick < |Cardinals| && 500 <= newDuration <= 1000
      modifies this`wanderTimer, this`wanderDuration, this`wanderStep, this`wanderAction,
               this`lastDirection, this`rect, this`action
      ensures old(target).None? || MoveBand(behavior, distance) == Stay ==>
        rect == old(rect) && action == old(action) && lastDirection == old(lastDirection)
        && wanderTimer == old(wanderTimer) && wanderDuration == old(wanderDuration)
        && wanderStep == old(wanderStep) && wanderAction == old(wanderAction)
      ensures old(target).Some? && (MoveBand(behavior, distance) in {Advance, Retreat}
                                    || (MoveBand(behavior, distance) == Roam && playerDistance > 200.0)) ==>
        && wanderTimer == old(wanderTimer) && wanderDuration == old(wanderDuration)
        && wanderStep == old(wanderStep) && wanderAction == old(wanderAction)
      ensures old(target).Some? && MoveBand(behavior, distance) == Roam && playerDistance <= 200.0 ==>
        var w := Reroll(walkDraw, pick, old(lastDirection));
        if now - old(wanderTimer) > old(wanderDuration) then
          && wanderTimer == now && wanderDuration == newDuration
          && wanderStep == w.step && wanderAction == w.action
        else
          && wanderTimer == old(wanderTimer) && wanderDuration == old(wanderDuration)
          && wanderStep == old(wanderStep) && wanderAction == old(wanderAction)
      ensures old(target).Some? && MoveBand(behavior, distance) != Stay ==>
        var c := old(rect).Center();
        var dx := target.value.x - c.x;
        var dy := target.value.y - c.y;
        var v := StepToward(dx, dy, distance, speed, dt);
        && (MoveBand(behavior, distance) == Advance ==> rect == Recentre(old(rect), v))
        && (MoveBand(behavior, distance) == Retreat ==> rect == Recentre(old(rect), Vec(-v.x, -v.y)))
        && (MoveBand(behavior, distance) == Roam && playerDistance > 200.0 ==>
              rect == Nudge(old(rect), StepToward(player.x - c.x, player.y - c.y, playerDistance, speed, dt)))
        && (MoveBand(behavior, distance) == Roam && playerDistance <= 200.0 ==>
              rect == Nudge(old(rect), Velocity(wanderStep, speed, dt)))
        && action == Walk(Facing(dx as real, dy as real))
        && lastDirection == Facing(dx as real, dy as real)
    {
      if target.None? {
        return;
      }
      var c := rect.Center();
      var dx := target.value.x - c.x;
      var dy := target.value.y - c.y;
      if distance > 0.0 {
        var band := MoveBand(behavior, distance);
        if band != Stay {
          var v := StepToward(dx, dy, distance, speed, dt);
          match band {
            case Advance => rect := Recentre(rect, v);
            case Retreat => rect := Recentre(rect, Vec(-v.x, -v.y));
            case Roam => RandomMove(now, dt, player, playerDistance, walkDraw, pick, newDuration);
          }
          var facing := Facing(dx as real / distance, dy as real / distance);
          UnitFacing(dx, dy, distance);
          action := Walk(facing);
          lastDirection := facing;
        }
      }
    }

    /** Stage 0 of the teleport: a 96-pixel jump, then the pause starts. */
    method Blink(now: int, pick: nat)
      requires pick < |Cardinals|
      modifies this`rect, this`specialStage, this`specialTimer
      ensures rect == old(rect).Move(BlinkDistance * Cardinals[pick].0, BlinkDistance * Cardinals[pick].1)
      ensures specialStage == 1 && specialTimer == now
    {
      rect := rect.Move(BlinkDistance * Cardinals[pick].0, BlinkDistance * Cardinals[pick].1);
      specialStage := 1;
      specialTimer := now;
    }

    /**
     * `attack`: the shared decision tree behind the 3.5 s cooldown, with
     * every throw and the area volley on the player's side; an insect swarm
     * cast releases 25 swarms at the target.
     */
    method Attack(now: int, choice: real, special: nat, second: real, jutsuPick: nat, throwPick: nat, blinkPick: nat)
      returns (a: Attack, shots: seq<Launch>, swarms: nat)
      requires Valid() && !specialActive && target.Some?
      requires special < |Specials| && throwPick < |ThrowPool(rank)| && blinkPick < |Cardinals|
      requires |ninjutsu| > 0 ==> jutsuPick < |ninjutsu|
      modifies this`lastAttackTime, this`specialActive, this`rect, this`specialStage, this`specialTimer
      ensures Valid()
      ensures var cooled := now as real / 1000.0 - old(lastAttackTime) > AttackCooldown;
        var c := old(rect).Center();
        var aim := Aim(target.value.x - c.x, target.value.y - c.y);
        && lastAttackTime == (if cooled then now as real / 1000.0 else old(lastAttackTime))
        && a == (if cooled && aim != Aim(0, 0)
                 then DecideAttack(rank, ninjutsu, choice, special, second, jutsuPick, throwPick) else NoAttack)
        && shots == AttackShots(a, rank, PlayerSide, c, aim, throwSpeed)
      ensures forall i :: 0 <= i < |shots| ==> shots[i].side == PlayerSide
      ensures swarms == if a.SwarmAttack? then SwarmSize else 0
      ensures a.TeleportAttack? ==>
        && specialActive && specialStage == 1 && specialTimer == now
        && rect == old(rect).Move(BlinkDistance * Cardinals[blinkPick].0, BlinkDistance * Cardinals[blinkPick].1)
      ensures !a.TeleportAttack? ==>
        rect == old(rect) && !specialActive && specialStage == 0 && specialTimer == old(specialTimer)
    {
      a := NoAttack;
      shots := [];
      swarms := 0;
      var c := rect.Center();
      var aim := Aim(target.value.x - c.x, target.value.y - c.y);
      if now as real / 1000.0 - lastAttackTime > AttackCooldown {
        lastAttackTime := now as real / 1000.0;
        if aim != Aim(0, 0) {
          a := DecideAttack(rank, ninjutsu, choice, special, second, jutsuPick, throwPick);
          shots := AttackShots(a, rank, PlayerSide, c, aim, throwSpeed);
          if a.TeleportAttack? {
            specialActive := true;
            Blink(now, blinkPick);
          } else if a.SwarmAttack? {
            swarms := SwarmSize;
          }
        }
      }
    }

    /**
     * `take_damage`: hp falls by the amount, the vision radius grows by 300,
     * knockback starts and a blood splash of `max(1, int(amount))` is
     * requested. At hp ≤ 0 the ally is dying, its rect shrinks to nothing, a
     * corpse tile is laid and the sprite is killed.
     */
    method TakeDamage(amount: real, knock: Vec, now: int) returns (blood: nat)
      modifies this`hp, this`visionRadius, this`knockbackVelocity, this`knockedBack, this`knockbackStart,
               this`isDying, this`rect, this`deathTile, this`alive
      ensures hp == old(hp) - amount
      ensures visionRadius == old(visionRadius) + 300
      ensures knockedBack && knockbackStart == now && knockbackVelocity == Vec(knock.x * 200.0, knock.y * 200.0)
      ensures amount >= 1.0 ==> blood == Trunc(amount)
      ensures amount < 1.0 ==> blood == 1
      ensures hp <= 0.0 ==>
        && isDying && !alive && rect == old(rect).(width := 0, height := 0)
        && deathTile == Some(Point(old(rect).left + 60, old(rect).top + 60))
      ensures hp > 0.0 ==>
        isDying == old(isDying) && alive == old(alive) && rect == old(rect) && deathTile == old(deathTile)
    {
      hp := hp - amount;
      visionRadius := visionRadius + 300;
      knockbackVelocity := Vec(knock.x * 200.0, knock.y * 200.0);
      knockedBack := true;
      knockbackStart := now;
      blood := if Trunc(amount) > 1 then Trunc(amount) else 1;
      if hp <= 0.0 {
        isDying := true;
        rect := rect.(width := 0, height := 0);
        deathTile := Some(Point(rect.left + 60, rect.top + 60));
        alive := false;
      }
    }

    /**
     * One step of `special_teleport_attack`: jump, pause 200 ms, then throw
     * a player-side fireball at the target and, when the chain draw passes,
     * jump again at once. A target on the ally's own centre makes
     * `normalize_ip` raise ValueError before anything changes.
     */
    method SpecialTeleportAttack(now: int, blinkPick: nat, chainDraw: real, chainPick: nat)
      returns (shot: Result<Option<Launch>>)
      requires Valid() && specialActive
      requires blinkPick < |Cardinals| && chainPick < |Cardinals|
      modifies this`rect, this`specialActive, this`specialStage, this`specialTimer
      ensures Valid()
      ensures shot.Err? <==> old(specialStage) == 2 && target.Some? && target.value == old(rect).Center()
      ensures shot.Err? ==>
        specialActive && specialStage == 2 && rect == old(rect) && specialTimer == old(specialTimer)
      ensures old(specialStage) == 0 ==>
        && shot == Ok(None) && specialActive && specialStage == 1 && specialTimer == now
        && rect == old(rect).Move(BlinkDistance * Cardinals[blinkPick].0, BlinkDistance * Cardinals[blinkPick].1)
      ensures old(specialStage) == 1 ==>
        && shot == Ok(None) && specialActive && rect == old(rect)
        && (now - old(specialTimer) >= TeleportPause ==> specialStage == 2 && specialTimer == now)
        && (now - old(specialTimer) < TeleportPause ==> specialStage == 1 && specialTimer == old(specialTimer))
      ensures old(specialStage) == 2 && target.None? ==>
        shot == Ok(None) && specialActive && specialStage == 2 && rect == old(rect) && specialTimer == old(specialTimer)
      ensures old(specialStage) == 2 && target.Some? && target.value != old(rect).Center() ==>
        var c := old(rect).Center();
        && shot == Ok(Some(Launch(Fireball, PlayerSide, c, Aim(target.value.x - c.x, target.value.y - c.y), throwSpeed)))
        && (ChainsAgain(rank, chainDraw) ==>
              && specialActive && specialStage == 1 && specialTimer == now
              && rect == old(rect).Move(BlinkDistance * Cardinals[chainPick].0, BlinkDistance * Cardinals[chainPick].1))
        && (!ChainsAgain(rank, chainDraw) ==>
              !specialActive && specialStage == 0 && rect == old(rect) && specialTimer == old(specialTimer))
    {
      shot := Ok(None);
      if specialStage == 0 {
        Blink(now, blinkPick);
      } else if specialStage == 1 {
        if now - specialTimer >= TeleportPause {
          specialStage := 2;
          specialTimer := now;
        }
      } else if target.Some? {
        var c := rect.Center();
        if target.value == c {
          return Err(ValueError("Can't normalize Vector of length Zero"));
        }
        shot := Ok(Some(Launch(Fireball, PlayerSide, c, Aim(target.value.x - c.x, target.value.y - c.y), throwSpeed)));
        specialActive := false;
        specialStage := 0;
        if ChainsAgain(rank, chainDraw) {
          specialActive := true;
          Blink(now, chainPick);
        }
      }
    }

    /**
     * `borderless`: each axis wraps on its own (`WrapAxis`), so an ally that
     * fits in the map is wholly inside it afterwards.
     */
    method Borderless(tileSize: int, mapWidth: int, mapHeight: int)
      modifies this`rect
      ensures rect == old(rect).(left := WrapAxis(old(rect).left, old(rect).width, mapWidth * tileSize),
                                 top := WrapAxis(old(rect).top, old(rect).height, mapHeight * tileSize))
      ensures rect.width <= mapWidth * tileSize ==> 0 <= rect.left && rect.RightEdge() <= mapWidth * tileSize
      ensures rect.height <= mapHeight * tileSize ==> 0 <= rect.top && rect.BottomEdge() <= mapHeight * tileSize
    {
      var w := mapWidth * tileSize;
      var h := mapHeight * tileSize;
      if rect.RightEdge() > w {
        rect := rect.(left := 0);
      } else if rect.left < 0 {
        rect := rect.(left := w - rect.width);
      }
      if rect.BottomEdge() > h {
        rect := rect.(top := 0);
      } else if rect.top < 0 {
        rect := rect.(top := h - rect.height);
      }
      if rect.width <= w {
        WrapKeepsInside(old(rect).left, rect.width, w);
      }
      if rect.height <= h {
        WrapKeepsInside(old(rect).top, rect.height, h);
      }
    }
  }
}

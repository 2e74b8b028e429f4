/**
 * The rules every combatant shares (characters.py `Character`): rank
 * multipliers, element and jutsu assignment, the nearest-target choice, the
 * attack decision tree, the movement bands, the three-stage teleport
 * fireball and damage intake.
 *
 * The pure rules are module-level functions; the ally (ally.py), which
 * repeats them in its own class, uses the same definitions. Random draws,
 * the clock and vector lengths are parameters: `now` is
 * `pygame.time.get_ticks()` in milliseconds, and a `distance` parameter is
 * the length of the vector the source normalises, tied to the squared
 * distance by a precondition.
 */
module Characters {
  import opened Wrappers
  import opened Geometry
  import opened Settings
  import opened Projectiles

  // ----------------------------------------------------------------- ranks

  /** The rank letters; `Unranked` stands for any other rank string. */
  datatype Rank = S | A | B | C | D | Unranked

  /** RANK_MULTIPLIERS with its 1.0 default for an unknown rank. */
  function Multiplier(r: Rank): (m: real)
    ensures 1.0 <= m <= 3.5
    ensures m == 1.0 <==> r in {D, Unranked}
  {
    match r
    case S => 3.5
    case A => 2.0
    case B => 1.5
    case C => 1.2
    case D => 1.0
    case Unranked => 1.0
  }

  /** A better rank always scales strictly more. */
  lemma MultipliersIncrease()
    ensures Multiplier(D) < Multiplier(C) < Multiplier(B) < Multiplier(A) < Multiplier(S)
  {
  }

  /** The ranks that are given an element, and so may cast ninjutsu. */
  predicate HasElement(r: Rank)
  {
    r in {S, A, B, C}
  }

  /** How many jutsu a rank learns (the `{'S': 4, ...}.get(rank, 0)` table). */
  function JutsuQuota(r: Rank): nat
  {
    match r
    case S => 4
    case A => 3
    case B => 2
    case C => 1
    case _ => 0
  }

  function Min(a: int, b: int): int
  {
    if a <= b then a else b
  }

  /** `assign_element`: `pick` is the `random.choice` over the element keys. */
  function AssignElement(r: Rank, pick: nat): (e: Option<Element>)
    requires pick < |Elements|
    ensures e.Some? <==> HasElement(r)
    ensures e.Some? ==> e.value == Elements[pick]
  {
    if HasElement(r) then Some(Elements[pick]) else None
  }

  /** `order` lists 0..n-1 once each: the shuffle `random.sample` draws from. */
  predicate IsShuffle(order: seq<nat>, n: nat)
  {
    && |order| == n
    && (forall i :: 0 <= i < n ==> order[i] < n)
    && (forall i, j :: 0 <= i < j < n ==> order[i] != order[j])
  }

  /**
   * `assign_ninjutsu`: no element gives no jutsu; otherwise
   * `random.sample(pool, min(len(pool), quota))`, taken as the first names
   * of a shuffle of the pool.
   */
  function AssignNinjutsu(r: Rank, element: Option<Element>, order: seq<nat>): (names: seq<string>)
    requires element.Some? ==> IsShuffle(order, |JutsuPool(element.value)|)
    ensures element.None? ==> names == []
    ensures element.Some? ==> |names| <= |JutsuPool(element.value)|
    ensures element.Some? ==> forall i :: 0 <= i < |names| ==> names[i] == JutsuPool(element.value)[order[i]].name
  {
    if element.None? then []
    else
      var pool := JutsuPool(element.value);
      var k := Min(|pool|, JutsuQuota(r));
      seq(k, i requires 0 <= i < k => pool[order[i]].name)
  }

  /**
   * Rank D (and any unknown rank) gets neither element nor jutsu; C, B, A and
   * S get exactly 1, 2, 3 and 4 distinct jutsu of their element's pool, the
   * pool never being too small for the quota.
   */
  lemma RankJutsu(r: Rank, pick: nat, order: seq<nat>)
    requires pick < |Elements|
    requires HasElement(r) ==> IsShuffle(order, 4)
    ensures var e := AssignElement(r, pick);
      && (e.Some? ==> IsShuffle(order, |JutsuPool(e.value)|))
      && (!HasElement(r) ==> e.None? && AssignNinjutsu(r, e, order) == [])
      && (HasElement(r) ==> |AssignNinjutsu(r, e, order)| == JutsuQuota(r))
      && (HasElement(r) ==> forall i, j :: 0 <= i < j < |AssignNinjutsu(r, e, order)| ==>
            AssignNinjutsu(r, e, order)[i] != AssignNinjutsu(r, e, order)[j])

  {
    var e := AssignElement(r, pick);
    if HasElement(r) {
      JutsuPoolShape(e.value);
      var names := AssignNinjutsu(r, e, order);
      forall i, j | 0 <= i < j < |names|
        ensures names[i] != names[j]
      {
        if order[i] < order[j] {
          assert names[i] == JutsuPool(e.value)[order[i]].name;
        } else {
          assert names[j] == JutsuPool(e.value)[order[j]].name;
        }
      }
    }
  }

  // ---------------------------------------------------------- attack choice

  /** The three special attacks `random.choice` picks from, in list order. */
  datatype Special = AreaSpecial | TeleportSpecial | SwarmSpecial

  const Specials: seq<Special> := [AreaSpecial, TeleportSpecial, SwarmSpecial]

  /** The branch `attack` takes. */
  datatype Attack =
    | NoAttack
    | AreaAttack
    | TeleportAttack
    | SwarmAttack
    | NinjutsuAttack(jutsu: string)
    | NormalAttack(weapon: Weapon)

  /** The weapons `perform_normal_attack` chooses from. */
  function ThrowPool(r: Rank): (pool: seq<Weapon>)
    ensures Fuuma in pool <==> r in {S, A, B}
    ensures forall w :: w in pool ==> StatsFor(w, 1.0).Ok?
  {
    if r in {S, A, B} then [Kunai, Shuriken, Fuuma] else [Kunai, Shuriken]
  }

  /** `rank in SABC and random() < 0.4 * multiplier`. */
  predicate PrefersNinjutsu(r: Rank, draw: real)
  {
    HasElement(r) && draw < 0.4 * Multiplier(r)
  }

  /**
   * The decision tree of `attack` once the cooldown has passed and the target
   * is not on top of the attacker: `choice` is the first `random()`,
   * `special` the `random.choice` of special attacks, `second` the second
   * `random()`, `jutsuPick` the `random.choice` of `use_ninjutsu` and
   * `throwPick` that of `perform_normal_attack`.
   */
  function DecideAttack(r: Rank, ninjutsu: seq<string>, choice: real, special: nat, second: real,
                        jutsuPick: nat, throwPick: nat): (a: Attack)
    requires special < |Specials| && throwPick < |ThrowPool(r)|
    requires |ninjutsu| > 0 ==> jutsuPick < |ninjutsu|
    ensures !a.NoAttack?
    ensures choice < 0.2 <==> (a.AreaAttack? || a.TeleportAttack? || a.SwarmAttack?)
    ensures a.NinjutsuAttack? <==> (choice >= 0.2 && PrefersNinjutsu(r, second) && |ninjutsu| > 0)
    ensures a.NinjutsuAttack? ==> a.jutsu in ninjutsu
    ensures a.NormalAttack? ==> a.weapon in ThrowPool(r)
  {
    if choice < 0.2 then
      match Specials[special]
      case AreaSpecial => AreaAttack
      case TeleportSpecial => TeleportAttack
      case SwarmSpecial => SwarmAttack
    else if PrefersNinjutsu(r, second) && |ninjutsu| > 0 then NinjutsuAttack(ninjutsu[jutsuPick])
    else NormalAttack(ThrowPool(r)[throwPick])
  }

  /**
   * An S-rank that knows any jutsu always casts one when no special attack
   * is drawn (0.4 × 3.5 exceeds every draw), and a D-rank never casts.
   */
  lemma NinjutsuOdds(r: Rank, ninjutsu: seq<string>, choice: real, special: nat, second: real,
                     jutsuPick: nat, throwPick: nat)
    requires special < |Specials| && throwPick < |ThrowPool(r)|
    requires |ninjutsu| > 0 ==> jutsuPick < |ninjutsu|
    requires 0.0 <= second < 1.0
    ensures r == S && choice >= 0.2 && |ninjutsu| > 0 ==>
      DecideAttack(r, ninjutsu, choice, special, second, jutsuPick, throwPick).NinjutsuAttack?
    ensures r in {D, Unranked} ==> !DecideAttack(r, ninjutsu, choice, special, second, jutsuPick, throwPick).NinjutsuAttack?
    ensures r == A && choice >= 0.2 && |ninjutsu| > 0 ==>
      (DecideAttack(r, ninjutsu, choice, special, second, jutsuPick, throwPick).NinjutsuAttack? <==> second < 0.8)
  {
  }

  /** The effect `perform_ninjutsu` creates; only seven jutsu names have one. */
  datatype JutsuFx = FireballFx | PhoenixFlowerFx | WaterBulletFx | WaterDragonFx | EarthWallFx | ChidoriFx | WindBladeFx

  function EffectOf(name: string): Option<JutsuFx>
  {
    if name == "Fireball Jutsu" then Some(FireballFx)
    else if name == "Phoenix Flower Jutsu" then Some(PhoenixFlowerFx)
    else if name == "Water Bullet" then Some(WaterBulletFx)
    else if name == "Water Dragon Jutsu" then Some(WaterDragonFx)
    else if name == "Earth Wall" then Some(EarthWallFx)
    else if name == "Chidori" then Some(ChidoriFx)
    else if name == "Wind Blade" then Some(WindBladeFx)
    else None
  }

  /** The effects that are given a target point 200 px along the aim. */
  predicate Aimed(fx: JutsuFx)
  {
    fx in {FireballFx, WaterBulletFx, WaterDragonFx, WindBladeFx}
  }

  /**
   * Of each element's four jutsu only the first (and, for fire and water,
   * the second) produces an effect; casting any other one does nothing.
   */
  lemma CastableJutsu(e: Element, i: nat)
    requires i < |JutsuPool(e)|
    ensures EffectOf(JutsuPool(e)[i].name).Some? <==> (i == 0 || (i == 1 && e in {Fire, Water}))
  {
  }

  // ------------------------------------------------------------ area volley

  /** Python's `range(start, stop, step)` for a positive step. */
  function PyRange(start: int, stop: int, step: int): (xs: seq<int>)
    requires step > 0
    ensures start < stop ==> (|xs| - 1) * step < stop - start <= |xs| * step
    ensures start >= stop ==> xs == []
    ensures forall i :: 0 <= i < |xs| ==> xs[i] == start + i * step && xs[i] < stop
    decreases stop - start
  {
    if start >= stop then []
    else
      var rest := PyRange(start + step, stop, step);
      assert |rest| * step + step == (|rest| + 1) * step;
      [start] + rest
  }

  /** `int(90 // multiplier)`, the angle between two area-attack throws. */
  function AreaStep(r: Rank): (step: int)
    ensures step >= 25
  {
    match r
    case S => assert 90.0 / 3.5 > 25.0; (90.0 / Multiplier(r)).Floor
    case A => (90.0 / Multiplier(r)).Floor
    case B => (90.0 / Multiplier(r)).Floor
    case C => (90.0 / Multiplier(r)).Floor
    case D => (90.0 / Multiplier(r)).Floor
    case Unranked => (90.0 / Multiplier(r)).Floor
  }

  /** The throw angles of `area_attack`: `range(0, 360, step)`. */
  function AreaAngles(r: Rank): seq<int>
  {
    PyRange(0, 360, AreaStep(r))
  }

  /** An area attack throws 4, 5, 6, 8 or 15 fuuma for D, C, B, A and S. */
  lemma AreaVolleySizes(r: Rank)
    ensures |AreaAngles(r)| == match r
      case S => 15 case A => 8 case B => 6 case C => 5 case D => 4 case Unranked => 4
    ensures forall i :: 0 <= i < |AreaAngles(r)| ==> 0 <= AreaAngles(r)[i] < 360
  {
    match r
    case S => assert AreaStep(S) == 25;
    case A => assert AreaStep(A) == 45;
    case B => assert AreaStep(B) == 60;
    case C => assert AreaStep(C) == 75;
    case D => assert AreaStep(D) == 90;
    case Unranked => assert AreaStep(Unranked) == 90;
  }

  // ---------------------------------------------------------- teleport chain

  /** The re-chain test of stage 2: ranks S to D, `random() > 1.5 / multiplier`. */
  predicate ChainsAgain(r: Rank, draw: real)
  {
    r != Unranked && draw > 1.5 / Multiplier(r)
  }

  /**
   * For a draw in [0, 1) only A (above 0.75) and S (above 3/7) can ever
   * chain a second teleport; D, C and B never do.
   */
  lemma ChainRule(r: Rank, draw: real)
    requires 0.0 <= draw < 1.0
    ensures ChainsAgain(r, draw) <==> (r == A && draw > 0.75) || (r == S && draw > 3.0 / 7.0)
  {
    match r
    case S => assert 1.5 / 3.5 == 3.0 / 7.0;
    case A => assert 1.5 / 2.0 == 0.75;
    case B => assert 1.5 / 1.5 == 1.0;
    case C => assert 1.5 / 1.2 == 1.25;
    case D => assert 1.5 / 1.0 == 1.5;
    case Unranked =>
  }

  // --------------------------------------------------------------- movement

  /** The four teleport and wander steps, in `directions` list order. */
  const Cardinals: seq<(int, int)> := [(1, 0), (-1, 0), (0, 1), (0, -1)]

  function CardinalDir(pick: nat): Dir
    requires pick < |Cardinals|
  {
    [Right, Left, Down, Up][pick]
  }

  /** The walk action the wander code names for each step is its facing. */
  lemma CardinalFacing(pick: nat)
    requires pick < |Cardinals|
    ensures Facing(Cardinals[pick].0 as real, Cardinals[pick].1 as real) == CardinalDir(pick)
  {
  }

  /**
   * A sprite action: `walk_*` or `idle_*` in a direction, or the bare
   * 'idle' a wander starts with before its first re-roll.
   */
  datatype Action = Walk(dir: Dir) | Idle(dir: Dir) | Idling

  /** What a wander re-roll sets: step, action and last direction. */
  datatype Wander = Wander(step: (int, int), action: Action, facing: Dir)

  /**
   * The re-roll of `random_move`: below 0.5 walk one of the four cardinal
   * steps and face it; otherwise stand idle facing the last direction.
   */
  function Reroll(walkDraw: real, pick: nat, facing: Dir): (w: Wander)
    requires pick < |Cardinals|
    ensures walkDraw < 0.5 ==> w.step in Cardinals && w.action == Walk(w.facing)
    ensures walkDraw < 0.5 ==> w.facing == Facing(w.step.0 as real, w.step.1 as real)
    ensures walkDraw >= 0.5 ==> w == Wander((0, 0), Idle(facing), facing)
  {
    CardinalFacing(pick);
    if walkDraw < 0.5 then Wander(Cardinals[pick], Walk(CardinalDir(pick)), CardinalDir(pick))
    else Wander((0, 0), Idle(facing), facing)
  }

  /** What `move` does at a given distance from the target. */
  datatype Stride = Stay | Advance | Retreat | Roam

  /**
   * The distance bands of `move`: nothing within 40; aggressive always
   * advances; defensive retreats below 150, advances above 250 and wanders
   * in between (as does any other behaviour).
   */
  function MoveBand(behavior: string, distance: real): (s: Stride)
    ensures s == Stay <==> distance <= 40.0
    ensures behavior == "aggressive" && distance > 40.0 ==> s == Advance
    ensures behavior == "defensive" ==> (s == Retreat <==> 40.0 < distance < 150.0)
    ensures behavior == "defensive" ==> (s == Advance <==> distance > 250.0)
    ensures behavior == "defensive" ==> (s == Roam <==> 150.0 <= distance <= 250.0)
    ensures s == Retreat ==> behavior == "defensive"
  {
    if distance <= 40.0 then Stay
    else if behavior == "aggressive" then Advance
    else if behavior == "defensive" && distance < 150.0 then Retreat
    else if behavior == "defensive" && distance > 250.0 then Advance
    else Roam
  }

  /** `direction * speed * dt` for the unit vector along (dx, dy). */
  function StepToward(dx: int, dy: int, distance: real, speed: int, dt: real): Vec
    requires distance > 0.0
  {
    Vec(dx as real / distance * speed as real * dt, dy as real / distance * speed as real * dt)
  }

  /** `direction * speed * dt` for a whole-number wander step. */
  function Velocity(step: (int, int), speed: int, dt: real): Vec
  {
    Vec(step.0 as real * speed as real * dt, step.1 as real * speed as real * dt)
  }

  /** The facing of the normalised vector is that of the raw difference. */
  lemma UnitFacing(dx: int, dy: int, distance: real)
    requires distance > 0.0
    ensures Facing(dx as real / distance, dy as real / distance) == Facing(dx as real, dy as real)
  {
    var k := 1.0 / distance;
    assert dx as real / distance == k * dx as real;
    assert dy as real / distance == k * dy as real;
    FacingScaleInvariant(dx as real, dy as real, k);
  }

  // -------------------------------------------------------------- launches

  /**
   * A projectile a combatant creates: its weapon type, side, start point,
   * heading and the thrower's `throw_speed`. `Aim(dx, dy)` is the unit
   * vector along (dx, dy); `Angle(a)` is (1, 0) rotated by a degrees.
   */
  datatype Heading = Aim(dx: int, dy: int) | Angle(degrees: int)

  datatype Launch = Launch(weapon: Weapon, side: Side, origin: Point, heading: Heading, throwSpeed: real)

  /** One fuuma per angle. */
  function Volley(angles: seq<int>, side: Side, origin: Point, throwSpeed: real): (shots: seq<Launch>)
    ensures |shots| == |angles|
    ensures forall i :: 0 <= i < |shots| ==> shots[i].weapon == Fuuma && shots[i].side == side
  {
    seq(|angles|, i requires 0 <= i < |angles| => Launch(Fuuma, side, origin, Angle(angles[i]), throwSpeed))
  }

  /** The projectiles an attack branch creates at once. */
  function AttackShots(a: Attack, r: Rank, side: Side, origin: Point, aim: Heading, throwSpeed: real): (shots: seq<Launch>)
    ensures forall i :: 0 <= i < |shots| ==> shots[i].side == side
  {
    match a
    case NormalAttack(w) => [Launch(w, side, origin, aim, throwSpeed)]
    case AreaAttack => Volley(AreaAngles(r), side, origin, throwSpeed)
    case _ => []
  }

  /** The two subclasses: each sets its own `projectile_side`. */
  datatype Faction = AllyFaction | EnemyFaction

  function SideOf(f: Faction): Side
  {
    match f
    case AllyFaction => PlayerSide
    case EnemyFaction => EnemySide
  }

  // -------------------------------------------------------------- the class

  /** `attack_cooldown`, in seconds. */
  const AttackCooldown: real := 3.5
  /** `special_attack_duration`, the stage-1 pause in milliseconds. */
  const TeleportPause: int := 200
  /** A teleport moves three 32-pixel tiles. */
  const BlinkDistance: int := 96

  class Character {
    const name: string
    const rank: Rank
    const multiplier: real
    const faction: Faction
    const behavior: string
    const throwSpeed: real
    const element: Option<Element>
    const ninjutsu: seq<string>

    var hp: real
    var speed: int
    var visionRadius: nat
    var rect: Rect
    /** The centre of the current target, if any. */
    var target: Option<Point>
    /** Seconds. */
    var lastAttackTime: real
    var action: Action
    var lastDirection: Dir
    var isDying: bool
    /** False once the sprite has been killed. */
    var alive: bool
    /** The corpse tile laid at death. */
    var deathTile: Option<Point>
    var knockedBack: bool
    var knockbackStart: int
    var knockbackVelocity: Vec
    var specialActive: bool
    var specialStage: nat
    var specialTimer: int
    var wanderTimer: int
    var wanderDuration: int
    var wanderStep: (int, int)
    var wanderAction: Action

    /** The teleport machine rests at stage 0 whenever it is not active. */
    ghost predicate Valid()
      reads this
    {
      && specialStage <= 2
      && (!specialActive ==> specialStage == 0)
      && multiplier == Multiplier(rank)
    }

    /**
     * The shared part of construction: the rank multiplier, zero stats, the
     * derived throw speed, an element and its jutsu. `elementPick` and
     * `order` are the random draws of `assign_element` and
     * `assign_ninjutsu`. The wander fields and the behaviour string are
     * given starting values here for every character; in the program only
     * the ally's constructor sets them.
     */
    constructor (name: string, rank: Rank, faction: Faction, behavior: string, rect: Rect,
                 elementPick: nat, order: seq<nat>)
      requires elementPick < |Elements|
      requires HasElement(rank) ==> IsShuffle(order, 4)
      ensures Valid()
      ensures this.name == name && this.rank == rank && this.faction == faction && this.behavior == behavior
      ensures this.rect == rect && target.None?
      ensures hp == 0.0 && speed == 0 && visionRadius == 0
      ensures throwSpeed == 0.8 * Multiplier(rank)
      ensures element == AssignElement(rank, elementPick)
      ensures ninjutsu == AssignNinjutsu(rank, element, order)
      ensures lastAttackTime == 0.0 && action == Idle(Down) && lastDirection == Down
      ensures !isDying && alive && !knockedBack && !specialActive && specialStage == 0
    {
      RankJutsu(rank, elementPick, order);
      this.name := name;
      this.rank := rank;
      this.multiplier := Multiplier(rank);
      this.faction := faction;
      this.behavior := behavior;
      this.throwSpeed := 0.8 * Multiplier(rank);
      this.element := AssignElement(rank, elementPick);
      this.ninjutsu := AssignNinjutsu(rank, AssignElement(rank, elementPick), order);
      this.hp := 0.0;
      this.speed := 0;
      this.visionRadius := 0;
      this.rect := rect;
      this.target := None;
      this.lastAttackTime := 0.0;
      this.action := Idle(Down);
      this.lastDirection := Down;
      this.isDying := false;
      this.alive := true;
      this.deathTile := None;
      this.knockedBack := false;
      this.knockbackStart := 0;
      this.knockbackVelocity := Vec(0.0, 0.0);
      this.specialActive := false;
      this.specialStage := 0;
      this.specialTimer := 0;
      this.wanderTimer := 0;
      this.wanderDuration := 1000;
      this.wanderStep := (0, 0);
      this.wanderAction := Idling;
    }

    /**
     * `find_closest_enemy`: the opposing side's combatants (enemies for an
     * ally, allies for an enemy) and then the player are scanned; a
     * candidate is taken only strictly inside the vision radius and strictly
     * nearer than the best so far. `found` indexes `opponents + [player]`.
     */
    method FindClosestEnemy(opponents: seq<Point>, player: Point) returns (found: Option<nat>)
      modifies this`target
      ensures var cands := opponents + [player];
        && (found.None? <==> forall k :: 0 <= k < |cands| ==> !InReach(DistSq(rect.Center(), cands[k]), visionRadius, false))
        && (found.None? ==> target.None?)
        && (found.Some? ==> found.value < |cands| && target == Some(cands[found.value]))
        && (found.Some? ==> forall k :: 0 <= k < |cands| && InReach(DistSq(rect.Center(), cands[k]), visionRadius, false) ==>
              DistSq(rect.Center(), cands[found.value]) <= DistSq(rect.Center(), cands[k]))
        && (found.Some? ==> forall k :: 0 <= k < found.value ==>
              DistSq(rect.Center(), cands[found.value]) < DistSq(rect.Center(), cands[k]))
    {
      var cands := opponents + [player];
      found := ClosestIndex(rect.Center(), cands, visionRadius, false);
      target := if found.Some? then Some(cands[found.value]) else None;
    }

    /**
     * `random_move`: once the current wander has lasted its duration a new
     * one is rolled (`newDuration` is the `randint(800, 1200)`), then the
     * rect takes the current step and the action becomes the wander action.
     */
    method RandomMove(now: int, dt: real, walkDraw: real, pick: nat, newDuration: int)
      requires pick < |Cardinals| && 800 <= newDuration <= 1200
      modifies this`wanderTimer, this`wanderDuration, this`wanderStep, this`wanderAction,
               this`lastDirection, this`rect, this`action
      ensures var w := Reroll(walkDraw, pick, old(lastDirection));
        if now - old(wanderTimer) > old(wanderDuration) then
          && wanderTimer == now && wanderDuration == newDuration
          && wanderStep == w.step && wanderAction == w.action && lastDirection == w.facing
        else
          && wanderTimer == old(wanderTimer) && wanderDuration == old(wanderDuration)
          && wanderStep == old(wanderStep) && wanderAction == old(wanderAction)
          && lastDirection == old(lastDirection)
      ensures rect == Nudge(old(rect), Velocity(wanderStep, speed, dt))
      ensures action == wanderAction
    {
      if now - wanderTimer > wanderDuration {
        wanderTimer := now;
        wanderDuration := newDuration;
        var w := Reroll(walkDraw, pick, lastDirection);
        wanderStep := w.step;
        wanderAction := w.action;
        lastDirection := w.facing;
      }
      rect := Nudge(rect, Velocity(wanderStep, speed, dt));
      action := wanderAction;
    }

    /**
     * `move`: with a target farther than 40 px the band decides between
     * advancing, retreating (the centre moves by the unit vector times
     * speed and dt) and wandering, and the sprite then faces the target.
     * Within 40 px, or without a target, nothing changes.
     */
    method Move(now: int, dt: real, distance: real, walkDraw: real, pick: nat, newDuration: int)
      requires target.Some? ==> 0.0 <= distance && distance * distance == DistSq(rect.Center(), target.value) as real
      requires pick < |Cardinals| && 800 <= newDuration <= 1200
      modifies this`wanderTimer, this`wanderDuration, this`wanderStep, this`wanderAction,
               this`lastDirection, this`rect, this`action
      ensures old(target).None? || MoveBand(behavior, distance) == Stay ==>
        rect == old(rect) && action == old(action) && lastDirection == old(lastDirection)
        && wanderTimer == old(wanderTimer) && wanderDuration == old(wanderDuration)
        && wanderStep == old(wanderStep) && wanderAction == old(wanderAction)
      ensures old(target).Some? && MoveBand(behavior, distance) in {Advance, Retreat} ==>
        && wanderTimer == old(wanderTimer) && wanderDuration == old(wanderDuration)
        && wanderStep == old(wanderStep) && wanderAction == old(wanderAction)
      ensures old(target).Some? && MoveBand(behavior, distance) == Roam ==>
        var w := Reroll(walkDraw, pick, old(lastDirection));
        if now - old(wanderTimer) > old(wanderDuration) then
          && wanderTimer == now && wanderDuration == newDuration
          && wanderStep == w.step && wanderAction == w.action
        else
          && wanderTimer == old(wanderTimer) && wanderDuration == old(wanderDuration)
          && wanderStep == old(wanderStep) && wanderAction == old(wanderAction)
      ensures old(target).Some? && MoveBand(behavior, distance) != Stay ==>
        var c := old(rect).Center();
        var dx := target.value.x - c.x;
        var dy := target.value.y - c.y;
        var v := StepToward(dx, dy, distance, speed, dt);
        && (MoveBand(behavior, distance) == Advance ==> rect == Recentre(old(rect), v))
        && (MoveBand(behavior, distance) == Retreat ==> rect == Recentre(old(rect), Vec(-v.x, -v.y)))
        && (MoveBand(behavior, distance) == Roam ==>
              rect == Nudge(old(rect), Velocity(wanderStep, speed, dt)))
        && action == Walk(Facing(dx as real, dy as real))
        && lastDirection == Facing(dx as real, dy as real)
    {
      if target.None? {
        return;
      }
      var c := rect.Center();
      var dx := target.value.x - c.x;
      var dy := target.value.y - c.y;
      if distance > 0.0 {
        var band := MoveBand(behavior, distance);
        if band != Stay {
          Travel(band, StepToward(dx, dy, distance, speed, dt), now, dt, walkDraw, pick, newDuration);
          var facing := Facing(dx as real / distance, dy as real / distance);
          UnitFacing(dx, dy, distance);
          action := Walk(facing);
          lastDirection := facing;
        }
      }
    }

    /** The displacement of one `move` band; `v` is the step toward the target. */
    method Travel(band: Stride, v: Vec, now: int, dt: real, walkDraw: real, pick: nat, newDuration: int)
      requires band != Stay
      requires pick < |Cardinals| && 800 <= newDuration <= 1200
      modifies this`wanderTimer, this`wanderDuration, this`wanderStep, this`wanderAction,
               this`lastDirection, this`rect, this`action
      ensures band == Advance ==> rect == Recentre(old(rect), v)
      ensures band == Retreat ==> rect == Recentre(old(rect), Vec(-v.x, -v.y))
      ensures band == Roam ==>
        rect == Nudge(old(rect), Velocity(wanderStep, speed, dt))
      ensures band == Roam ==>
        var w := Reroll(walkDraw, pick, old(lastDirection));
        if now - old(wanderTimer) > old(wanderDuration) then
          && wanderTimer == now && wanderDuration == newDuration
          && wanderStep == w.step && wanderAction == w.action && lastDirection == w.facing
        else
          && wanderTimer == old(wanderTimer) && wanderDuration == old(wanderDuration)
          && wanderStep == old(wanderStep) && wanderAction == old(wanderAction)
          && lastDirection == old(lastDirection)
      ensures band == Roam ==> action == wanderAction
      ensures band != Roam ==>
        && wanderTimer == old(wanderTimer) && wanderDuration == old(wanderDuration)
        && wanderStep == old(wanderStep) && wanderAction == old(wanderAction)
        && lastDirection == old(lastDirection) && action == old(action)
    {
      match band {
        case Advance => rect := Recentre(rect, v);
        case Retreat => rect := Recentre(rect, Vec(-v.x, -v.y));
        case Roam => RandomMove(now, dt, walkDraw, pick, newDuration);
      }
    }

    /**
     * `special_teleport_attack`'s stage 0: a 96-pixel jump in the drawn
     * cardinal direction, then the pause starts.
     */
    method Blink(now: int, pick: nat)
      requires pick < |Cardinals|
      modifies this`rect, this`specialStage, this`specialTimer
      ensures rect == old(rect).Move(BlinkDistance * Cardinals[pick].0, BlinkDistance * Cardinals[pick].1)
      ensures specialStage == 1 && specialTimer == now
    {
      rect := rect.Move(BlinkDistance * Cardinals[pick].0, BlinkDistance * Cardinals[pick].1);
      specialStage := 1;
      specialTimer := now;
    }

    /**
     * `attack`: nothing unless more than 3.5 s have passed since the last
     * attack; then the clock is reset and, unless the target sits on the
     * attacker's centre, the decision tree picks a branch. A teleport starts
     * the stage machine at once; throws and the area volley are returned.
     */
    method Attack(now: int, choice: real, special: nat, second: real, jutsuPick: nat, throwPick: nat, blinkPick: nat)
      returns (a: Attack, shots: seq<Launch>)
      requires Valid() && !specialActive && target.Some?
      requires special < |Specials| && throwPick < |ThrowPool(rank)| && blinkPick < |Cardinals|
      requires |ninjutsu| > 0 ==> jutsuPick < |ninjutsu|
      modifies this`lastAttackTime, this`specialActive, this`rect, this`specialStage, this`specialTimer
      ensures Valid()
      ensures var cooled := now as real / 1000.0 - old(lastAttackTime) > AttackCooldown;
        var c := old(rect).Center();
        var aim := Aim(target.value.x - c.x, target.value.y - c.y);
        && lastAttackTime == (if cooled then now as real / 1000.0 else old(lastAttackTime))
        && a == (if cooled && aim != Aim(0, 0)
                 then DecideAttack(rank, ninjutsu, choice, special, second, jutsuPick, throwPick) else NoAttack)
        && shots == AttackShots(a, rank, SideOf(faction), c, aim, throwSpeed)
      ensures a.TeleportAttack? ==>
        && specialActive && specialStage == 1 && specialTimer == now
        && rect == old(rect).Move(BlinkDistance * Cardinals[blinkPick].0, BlinkDistance * Cardinals[blinkPick].1)
      ensures !a.TeleportAttack? ==>
        rect == old(rect) && !specialActive && specialStage == 0 && specialTimer == old(specialTimer)
    {
      a := NoAttack;
      shots := [];
      var c := rect.Center();
      var aim := Aim(target.value.x - c.x, target.value.y - c.y);
      if now as real / 1000.0 - lastAttackTime > AttackCooldown {
        lastAttackTime := now as real / 1000.0;
        if aim != Aim(0, 0) {
          a := DecideAttack(rank, ninjutsu, choice, special, second, jutsuPick, throwPick);
          shots := AttackShots(a, rank, SideOf(faction), c, aim, throwSpeed);
          if a.TeleportAttack? {
            specialActive := true;
            Blink(now, blinkPick);
          }
        }
      }
    }

    /**
     * `take_damage`: hp falls by the amount, the vision radius grows by 300,
     * the knockback starts (200 times the direction), and a blood splash of
     * `max(1, int(amount))` is requested (the result). At hp ≤ 0 the
     * character is dying, its rect shrinks to nothing, a corpse tile is laid
     * 60 px right of and below its corner and the sprite is killed.
     */
    method TakeDamage(amount: real, knock: Vec, now: int) returns (blood: nat)
      modifies this`hp, this`visionRadius, this`knockbackVelocity, this`knockedBack, this`knockbackStart,
               this`isDying, this`rect, this`deathTile, this`alive
      ensures hp == old(hp) - amount
      ensures visionRadius == old(visionRadius) + 300
      ensures knockedBack && knockbackStart == now && knockbackVelocity == Vec(knock.x * 200.0, knock.y * 200.0)
      ensures amount >= 1.0 ==> blood == Trunc(amount)
      ensures amount < 1.0 ==> blood == 1
      ensures hp <= 0.0 ==>
        && isDying && !alive && rect == old(rect).(width := 0, height := 0)
        && deathTile == Some(Point(old(rect).left + 60, old(rect).top + 60))
      ensures hp > 0.0 ==>
        isDying == old(isDying) && alive == old(alive) && rect == old(rect) && deathTile == old(deathTile)
    {
      hp := hp - amount;
      visionRadius := visionRadius + 300;
      knockbackVelocity := Vec(knock.x * 200.0, knock.y * 200.0);
      knockedBack := true;
      knockbackStart := now;
      blood := if Trunc(amount) > 1 then Trunc(amount) else 1;
      if hp <= 0.0 {
        isDying := true;
        rect := rect.(width := 0, height := 0);
        deathTile := Some(Point(rect.left + 60, rect.top + 60));
        alive := false;
      }
    }

    /**
     * One step of `special_teleport_attack` while it is active: stage 0
     * jumps and goes to 1; stage 1 goes to 2 once 200 ms have passed; stage
     * 2, with a target, throws a player-side fireball at it, ends the attack
     * and, when the chain draw passes, starts over at once with a new jump.
     * A target on the character's own centre makes `normalize_ip` raise
     * ValueError before anything changes.
     */
    method SpecialTeleportAttack(now: int, blinkPick: nat, chainDraw: real, chainPick: nat)
      returns (shot: Result<Option<Launch>>)
      requires Valid() && specialActive
      requires blinkPick < |Cardinals| && chainPick < |Cardinals|
      modifies this`rect, this`specialActive, this`specialStage, this`specialTimer
      ensures Valid()
      ensures shot.Err? <==> old(specialStage) == 2 && target.Some? && target.value == old(rect).Center()
      ensures shot.Err? ==>
        specialActive && specialStage == 2 && rect == old(rect) && specialTimer == old(specialTimer)
      ensures old(specialStage) == 0 ==>
        && shot == Ok(None) && specialActive && specialStage == 1 && specialTimer == now
        && rect == old(rect).Move(BlinkDistance * Cardinals[blinkPick].0, BlinkDistance * Cardinals[blinkPick].1)
      ensures old(specialStage) == 1 ==>
        && shot == Ok(None) && specialActive && rect == old(rect)
        && (now - old(specialTimer) >= TeleportPause ==> specialStage == 2 && specialTimer == now)
        && (now - old(specialTimer) < TeleportPause ==> specialStage == 1 && specialTimer == old(specialTimer))
      ensures old(specialStage) == 2 && target.None? ==>
        shot == Ok(None) && specialActive && specialStage == 2 && rect == old(rect) && specialTimer == old(specialTimer)
      ensures old(specialStage) == 2 && target.Some? && target.value != old(rect).Center() ==>
        var c := old(rect).Center();
        && shot == Ok(Some(Launch(Fireball, PlayerSide, c, Aim(target.value.x - c.x, target.value.y - c.y), throwSpeed)))
        && (ChainsAgain(rank, chainDraw) ==>
              && specialActive && specialStage == 1 && specialTimer == now
              && rect == old(rect).Move(BlinkDistance * Cardinals[chainPick].0, BlinkDistance * Cardinals[chainPick].1))
        && (!ChainsAgain(rank, chainDraw) ==>
              !specialActive && specialStage == 0 && rect == old(rect) && specialTimer == old(specialTimer))
    {
      shot := Ok(None);
      if specialStage == 0 {
        Blink(now, blinkPick);
      } else if specialStage == 1 {
        if now - specialTimer >= TeleportPause {
          specialStage := 2;
          specialTimer := now;
        }
      } else if target.Some? {
        var c := rect.Center();
        if target.value == c {
          return Err(ValueError("Can't normalize Vector of length Zero"));
        }
        shot := Ok(Some(Launch(Fireball, PlayerSide, c, Aim(target.value.x - c.x, target.value.y - c.y), throwSpeed)));
        specialActive := false;
        specialStage := 0;
        if ChainsAgain(rank, chainDraw) {
          specialActive := true;
          Blink(now, chainPick);
        }
      }
    }
  }
}

/**
 * The player (player.py `Player`): the experience curve and the stats it
 * grows, the charged special attacks and their mana, regeneration, the saved
 * snapshot, facing, the inventory slots, damage with the Kawarimi dodge and
 * invincibility, the map wrap-around and the melee swing.
 */
module Players {
  import opened Wrappers
  import opened Geometry
  import opened Settings
  import opened Characters

  // ------------------------------------------------------------ level curve

  /**
   * L³ − 6L² + 17L − 12: `calculate_level` leaves level L as soon as the
   * experience is below 50/3 of this value, so the thresholds for levels
   * 1, 2, 3, 4, 5 are 0, 100, 200, 400, 800.
   */
  function Curve(l: int): int
  {
    l * l * l - 6 * l * l + 17 * l - 12
  }

  /** The curve grows at least linearly, which bounds the level search. */
  lemma CurveAtLeastLinear(l: int)
    requires l >= 1
    ensures Curve(l) >= 6 * (l - 1)
  {
    assert Curve(l) == (l - 1) * (l * l - 5 * l + 12);
    assert l * l - 5 * l + 6 == (l - 2) * (l - 3);
    if l <= 2 {
      assert (l - 2) * (l - 3) >= 0;
    } else {
      assert (l - 2) * (l - 3) >= 0;
    }
    assert (l - 1) * (l * l - 5 * l + 12 - 6) >= 0;
  }

  /** The curve is strictly increasing, so each experience has one level. */
  lemma CurveIncreasing(l: int)
    ensures Curve(l + 1) > Curve(l)
  {
    assert Curve(l + 1) - Curve(l) == 3 * ((l - 1) * (l - 2) + 2);
    if l <= 1 {
      assert (l - 1) * (l - 2) >= 0;
    } else {
      assert (l - 1) * (l - 2) >= 0;
    }
  }

  lemma {:induction false} CurveMonotone(a: int, b: int)
    requires a <= b
    ensures Curve(a) <= Curve(b)
    decreases b - a
  {
    if a < b {
      CurveIncreasing(a);
      CurveMonotone(a + 1, b);
    }
  }

  /** `experience < 50/3 * Curve(l)`, multiplied out by 3. */
  predicate Below(experience: int, l: int)
  {
    3 * experience < 50 * Curve(l)
  }

  /** `l` is the level of `experience`: the least l ≥ 1 it stays below. */
  predicate IsLevelFor(experience: int, l: int)
  {
    l >= 1 && Below(experience, l) && forall k :: 1 <= k < l ==> !Below(experience, k)
  }

  function LevelFrom(experience: int, l: int): (n: int)
    requires l >= 1 && forall k :: 1 <= k < l ==> !Below(experience, k)
    ensures IsLevelFor(experience, n) && n >= l
    decreases 3 * experience - 300 * (l - 1)
  {
    if Below(experience, l) then l
    else
      CurveAtLeastLinear(l);
      LevelFrom(experience, l + 1)
  }

  /** The level `calculate_level` returns for an experience total. */
  function LevelOf(experience: int): (n: int)
    ensures IsLevelFor(experience, n)
  {
    LevelFrom(experience, 1)
  }

  lemma LevelUnique(experience: int, l: int, l': int)
    requires IsLevelFor(experience, l) && IsLevelFor(experience, l')
    ensures l == l'
  {
  }

  /** More experience never means a lower level. */
  lemma LevelMonotone(e: int, e': int)
    requires e <= e'
    ensures LevelOf(e) <= LevelOf(e')
  {
    var n, n' := LevelOf(e), LevelOf(e');
    assert Below(e, n');
    if n' < n {
      assert false;
    }
  }

  /** `l` is the level of `e` once `e` is below the curve at `l` and not at `l - 1`. */
  lemma LevelIs(e: int, l: int)
    requires l >= 1 && Below(e, l) && (l == 1 || !Below(e, l - 1))
    ensures LevelOf(e) == l
  {
    forall k | 1 <= k < l
      ensures !Below(e, k)
    {
      CurveMonotone(k, l - 1);
    }
    LevelUnique(e, l, LevelOf(e));
  }

  /** The first thresholds: below 0 is level 1; levels 2 to 6 begin at 0, 100, 200, 400 and 800, level 7 at 1500. */
  lemma LevelThresholds(e: int)
    ensures e < 0 ==> LevelOf(e) == 1
    ensures 0 <= e < 100 ==> LevelOf(e) == 2
    ensures 100 <= e < 200 ==> LevelOf(e) == 3
    ensures 200 <= e < 400 ==> LevelOf(e) == 4
    ensures 400 <= e < 800 ==> LevelOf(e) == 5
    ensures 800 <= e < 1500 ==> LevelOf(e) == 6
  {
    assert Curve(1) == 0 && Curve(2) == 6 && Curve(3) == 12 && Curve(4) == 24 && Curve(5) == 48 && Curve(6) == 90;
    if e < 0 {
      LevelIs(e, 1);
    } else if e < 100 {
      LevelIs(e, 2);
    } else if e < 200 {
      LevelIs(e, 3);
    } else if e < 400 {
      LevelIs(e, 4);
    } else if e < 800 {
      LevelIs(e, 5);
    } else if e < 1500 {
      LevelIs(e, 6);
    }
  }

  // -------------------------------------------------------- special attacks

  /** Which special `perform_special_attack` starts for a charge time. */
  datatype Tier = NoSpecial | MediumSpecial | StrongSpecial

  function ChargeTier(chargeTime: int, mana: real): (t: Tier)
    ensures chargeTime < 1000 ==> t == NoSpecial
    ensures t == MediumSpecial <==> 1000 <= chargeTime < 2000 && mana > 10.0
    ensures t == StrongSpecial <==> chargeTime >= 2000 && mana > 30.0
  {
    if chargeTime < 1000 then NoSpecial
    else if chargeTime < 2000 then (if mana > 10.0 then MediumSpecial else NoSpecial)
    else if mana > 30.0 then StrongSpecial else NoSpecial
  }

  /** The medium attack's fireball: aimed along (dx, dy), blast 20 over 200 px. */
  datatype MediumShot = MediumShot(origin: Point, dx: int, dy: int, throwSpeed: real,
                                   explosionDamage: int, explosionRadius: int)

  /** The reach of the medium and strong attacks' target search. */
  const SpecialReach: nat := 900

  // ----------------------------------------------------------- regeneration

  /** `min(value + rate * dt, cap)`. */
  function Regen(value: real, rate: real, dt: real, cap: real): (r: real)
    ensures r <= cap
    ensures value + rate * dt <= cap ==> r == value + rate * dt
    ensures value + rate * dt > cap ==> r == cap
  {
    if value + rate * dt <= cap then value + rate * dt else cap
  }

  // ------------------------------------------------------------- save state

  /** The three inventory slots; each may be empty. */
  datatype Inventory = Inventory(ranged: Option<Weapon>, melee: Option<Weapon>, armor: Option<string>)

  /** The fields `save_state` writes. */
  datatype Snapshot = Snapshot(experience: int, hp: real, maxHp: int, mana: real, maxMana: int,
                               inventory: Inventory, gold: int)

  /** A saved-state dictionary: a missing key is `None`. */
  datatype SaveState = SaveState(experience: Option<int>, hp: Option<real>, maxHp: Option<int>,
                                 mana: Option<real>, maxMana: Option<int>,
                                 inventory: Option<Inventory>, gold: Option<int>)
  {
    /** An empty dictionary is falsy, so `load_state` ignores it. */
    predicate IsEmpty()
    {
      experience.None? && hp.None? && maxHp.None? && mana.None? && maxMana.None? && inventory.None? && gold.None?
    }
  }

  function GetOr<T>(o: Option<T>, default: T): T
  {
    if o.Some? then o.value else default
  }

  /** `save_state`: every key present. */
  function Saved(s: Snapshot): (st: SaveState)
    ensures !st.IsEmpty()
  {
    SaveState(Some(s.experience), Some(s.hp), Some(s.maxHp), Some(s.mana), Some(s.maxMana),
              Some(s.inventory), Some(s.gold))
  }

  /**
   * `load_state`: a non-empty state overwrites each field it holds and keeps
   * the others, except gold, which falls back to 0; an empty state changes
   * nothing.
   */
  function Loaded(cur: Snapshot, st: SaveState): (s: Snapshot)
    ensures st.IsEmpty() ==> s == cur
    ensures !st.IsEmpty() ==> s.gold == GetOr(st.gold, 0)
    ensures !st.IsEmpty() ==> s.experience == GetOr(st.experience, cur.experience)
    ensures !st.IsEmpty() ==> s.inventory == GetOr(st.inventory, cur.inventory)
    ensures !st.IsEmpty() ==> s.hp == GetOr(st.hp, cur.hp) && s.maxHp == GetOr(st.maxHp, cur.maxHp)
    ensures !st.IsEmpty() ==> s.mana == GetOr(st.mana, cur.mana) && s.maxMana == GetOr(st.maxMana, cur.maxMana)
  {
    if st.IsEmpty() then cur
    else Snapshot(GetOr(st.experience, cur.experience), GetOr(st.hp, cur.hp), GetOr(st.maxHp, cur.maxHp),
                  GetOr(st.mana, cur.mana), GetOr(st.maxMana, cur.maxMana),
                  GetOr(st.inventory, cur.inventory), GetOr(st.gold, 0))
  }

  /** Loading what was saved restores every saved field, whatever came before. */
  lemma LoadSaveRoundTrip(cur: Snapshot, s: Snapshot)
    ensures Loaded(cur, Saved(s)) == s
  {
  }

  /** Loading the same state twice is loading it once. */
  lemma LoadIdempotent(cur: Snapshot, st: SaveState)
    ensures Loaded(Loaded(cur, st), st) == Loaded(cur, st)
  {
  }

  // -------------------------------------------------------------- inventory

  /**
   * `absorb_item`: a weapon name fills the slot its type names; a name that
   * is not a weapon changes nothing; the fireball, which has no type,
   * raises KeyError.
   */
  function Slotted(inv: Inventory, item: string): (r: Result<Inventory>)
    ensures r.Err? <==> item == "fireball"
    ensures r.Ok? && WeaponNamed(item).None? ==> r.value == inv
    ensures r.Ok? && WeaponNamed(item).Some? && WeaponData(WeaponNamed(item).value).kind == Some(Ranged) ==>
      r.value == inv.(ranged := WeaponNamed(item))
    ensures r.Ok? && WeaponNamed(item).Some? && WeaponData(WeaponNamed(item).value).kind == Some(Melee) ==>
      r.value == inv.(melee := WeaponNamed(item))
  {
    match WeaponNamed(item)
    case None => Ok(inv)
    case Some(w) =>
      WeaponNameRoundTrip(w, item);
      FireballIsUntyped(w);
      match WeaponData(w).kind
      case None => Err(KeyError("type"))
      case Some(Ranged) => Ok(inv.(ranged := Some(w)))
      case Some(Melee) => Ok(inv.(melee := Some(w)))
  }

  /** Every item an enemy can drop goes into a slot without error. */
  lemma DropsAlwaysSlot(inv: Inventory, i: nat)
    requires i < |DropItems|
    ensures Slotted(inv, DropItems[i]).Ok?
    ensures Slotted(inv, DropItems[i]).value.ranged == WeaponNamed(DropItems[i]) ||
            Slotted(inv, DropItems[i]).value.melee == WeaponNamed(DropItems[i])
  {
    DropsAreTypedWeapons(i);
  }

  // --------------------------------------------------------------- wrapping

  /**
   * `borderless` for the player: past one tile beyond the right edge the
   * left edge goes to 0, and left of 0 it goes to the right edge; below the
   * bottom the top goes to 0, and above the top the bottom goes to the
   * bottom edge.
   */
  function PlayerWrap(r: Rect, tileSize: int, mapWidth: int, mapHeight: int): (q: Rect)
    requires tileSize >= 0 && mapWidth >= 0 && mapHeight >= 0
    ensures q.width == r.width && q.height == r.height
    ensures 0 <= q.left && (q.left <= mapWidth * tileSize || q.RightEdge() <= (mapWidth + 1) * tileSize)
    ensures q.top <= mapHeight * tileSize && q.BottomEdge() >= 0
    ensures (0 <= r.left && r.RightEdge() <= (mapWidth + 1) * tileSize &&
             r.top <= mapHeight * tileSize && r.BottomEdge() >= 0) ==> q == r
    ensures r.RightEdge() > (mapWidth + 1) * tileSize ==> q.left == 0
    ensures r.RightEdge() <= (mapWidth + 1) * tileSize && r.left < 0 ==> q.left == mapWidth * tileSize
    ensures r.top > mapHeight * tileSize ==> q.top == 0
    ensures r.top <= mapHeight * tileSize && r.BottomEdge() < 0 ==> q.BottomEdge() == mapHeight * tileSize
  {
    var left := if r.RightEdge() > (mapWidth + 1) * tileSize then 0
                else if r.left < 0 then mapWidth * tileSize
                else r.left;
    var top := if r.top > mapHeight * tileSize then 0
               else if r.BottomEdge() < 0 then mapHeight * tileSize - r.height
               else r.top;
    r.(left := left, top := top)
  }

  // ------------------------------------------------------------------ melee

  /** A melee pose: `attack_*` or `kick_*`, or another pose in a direction. */
  datatype Pose = Standing(dir: Dir) | Striking(dir: Dir) | Kicking(dir: Dir) | Raikiri(dir: Dir) | Casting(dir: Dir)

  /** `get_attack_direction`: the unit step of the last direction. */
  function DirVector(d: Dir): (int, int)
  {
    match d
    case Up => (0, -1)
    case Down => (0, 1)
    case Left => (-1, 0)
    case Right => (1, 0)
  }

  /** Punch: damage 10, reach 50; sword: damage 20, reach 70. */
  datatype Strike = Strike(weapon: Weapon, damage: int, reach: int, area: Rect)

  /**
   * The hit box of `check_melee_collisions`: a square of side twice the
   * reach, centred 20 px ahead of the player.
   */
  function StrikeArea(center: Point, d: Dir, reach: nat): (r: Rect)
    ensures r.Center() == Point(center.x + 20 * DirVector(d).0, center.y + 20 * DirVector(d).1)
    ensures r.width == 2 * reach && r.height == 2 * reach
  {
    var v := DirVector(d);
    Rect(center.x + 20 * v.0 - reach, center.y + 20 * v.1 - reach, 2 * reach, 2 * reach)
  }

  /** An enemy rect the swing damages: inside the hit box, not centred on the player. */
  predicate Struck(area: Rect, me: Point, enemy: Rect)
  {
    Overlaps(area, enemy) && enemy.Center() != me
  }

  /** The indices of the struck enemies, in scan order. */
  function StruckIndices(area: Rect, me: Point, enemies: seq<Rect>): (hits: seq<nat>)
    ensures forall j :: 0 <= j < |hits| ==> hits[j] < |enemies| && Struck(area, me, enemies[hits[j]])
    ensures forall i :: 0 <= i < |enemies| && Struck(area, me, enemies[i]) ==> i in hits
    ensures forall j, k :: 0 <= j < k < |hits| ==> hits[j] < hits[k]
  {
    if |enemies| == 0 then []
    else
      var n := |enemies| - 1;
      var rest := StruckIndices(area, me, enemies[..n]);
      rest + (if Struck(area, me, enemies[n]) then [n] else [])
  }

  // -------------------------------------------------------------- the class

  /** `melee_cooldown`, milliseconds. */
  const MeleeCooldown: int := 500
  /** A Kawarimi jump is four 32-pixel tiles. */
  const KawarimiDistance: int := 128
  /** `raikiri_max_duration`, milliseconds. */
  const RaikiriMaxDuration: int := 5000

  /** The player's guard: alive, invincibility and knockback, as a hit leaves them. */
  datatype Guard = Guard(alive: bool, invincible: bool, invincibleStart: int,
                         knockedBack: bool, knockbackStart: int, knockbackVelocity: Vec)

  /**
   * The guard after `take_damage` lands on a player that was not
   * invincible, left with `hp`: a fatal hit only kills; any other starts the
   * invincibility and a knockback at 200 times the unit vector, both at `now`.
   */
  function AfterHit(g: Guard, hp: real, knock: Vec, now: int): (g': Guard)
    ensures g'.alive <==> g.alive && hp > 0.0
    ensures hp > 0.0 ==> g'.invincible && g'.knockedBack && g'.invincibleStart == now && g'.knockbackStart == now
    ensures hp <= 0.0 ==> g' == g.(alive := false)
  {
    if hp <= 0.0 then g.(alive := false)
    else g.(invincible := true, invincibleStart := now, knockedBack := true,
            knockbackStart := now, knockbackVelocity := Vec(knock.x * 200.0, knock.y * 200.0))
  }

  class Player {
    var gold: int
    var experience: int
    var hp: real
    var maxHp: int
    var mana: real
    var maxMana: int
    var speed: int
    var attackRange: int
    var manaRegeneration: real
    const hpRegeneration: real
    var throwSpeed: real
    var ninjutsu: real
    /** `nivel`, the level computed at construction. */
    var level: int
    var inventory: Inventory
    var rect: Rect
    var lastDirection: Dir
    var pose: Pose
    /** False once the sprite has been killed. */
    var alive: bool
    var invincible: bool
    var invincibleStart: int
    var knockedBack: bool
    var knockbackStart: int
    var knockbackVelocity: Vec
    var isAttacking: bool
    var attackStart: int
    var lastMeleeTime: int
    var performingSpecial: bool
    var raikiriTarget: Option<Point>
    var raikiriStart: int
    var raikiriEnd: int
    var raikiriAnimationComplete: bool

    /** The fields a hit changes besides hp and the rect. */
    function GuardState(): Guard
      reads this`alive, this`invincible, this`invincibleStart, this`knockedBack,
            this`knockbackStart, this`knockbackVelocity
    {
      Guard(alive, invincible, invincibleStart, knockedBack, knockbackStart, knockbackVelocity)
    }

    /** The fields `save_state` writes. */
    function Snap(): Snapshot
      reads this
    {
      Snapshot(experience, hp, maxHp, mana, maxMana, inventory, gold)
    }

    /**
     * The constructor: the starting stats, then the saved state if one is
     * given, then the level. `calculate_level` runs last, so the maximum hp
     * and mana, speed and range follow the level, whatever the state held.
     * The player starts alive, facing down, neither attacking nor
     * invincible nor knocked back.
     */
    constructor (pos: Point, state: SaveState)
      ensures var s := Loaded(Snapshot(1, 60.0, 60, 250.0, 250, Inventory(Some(Kunai), Some(Fist), None), 0), state);
        && experience == s.experience && hp == s.hp && mana == s.mana && inventory == s.inventory && gold == s.gold
      ensures level == LevelOf(experience) && LevelStats(level)
      ensures throwSpeed == 1.0 + 0.1 * (level - 1) as real && ninjutsu == 1.0 + 0.2 * (level - 1) as real
      ensures rect == Rect(pos.x, pos.y, 32, 32)
    {
      gold := 0;
      experience := 1;
      hp := 60.0;
      maxHp := 60;
      mana := 250.0;
      maxMana := 250;
      speed := 60;
      attackRange := 350;
      manaRegeneration := 0.5;
      hpRegeneration := 0.5;
      throwSpeed := 1.0;
      ninjutsu := 1.0;
      level := 1;
      inventory := Inventory(Some(Kunai), Some(Fist), None);
      rect := Rect(pos.x, pos.y, 32, 32);
      lastDirection := Down;
      pose := Standing(Down);
      alive := true;
      invincible := false;
      invincibleStart := 0;
      knockedBack := false;
      knockbackStart := 0;
      knockbackVelocity := Vec(0.0, 0.0);
      isAttacking := false;
      attackStart := 0;
      lastMeleeTime := 0;
      performingSpecial := false;
      raikiriTarget := None;
      raikiriStart := 0;
      raikiriEnd := 0;
      raikiriAnimationComplete := false;
      new;
      LoadState(state);
      level := CalculateLevel();
    }

    /**
     * The stats `calculate_level` derives from level `l`: each level above
     * the first adds 5 hp, 5 mana, 3 speed, 5 range and 0.1 mana regeneration.
     */
    ghost predicate LevelStats(l: int)
      reads this
    {
      && maxHp == 60 + 5 * (l - 1) && maxMana == 55 + 5 * (l - 1)
      && speed == 55 + 3 * (l - 1) && attackRange == 350 + 5 * (l - 1)
      && manaRegeneration == 5.5 + 0.1 * (l - 1) as real
    }

    /**
     * `calculate_level`: counts levels up from 1 until the experience is
     * below the curve, resetting max hp, max mana, speed, range and mana
     * regeneration to their level-1 values and adding each level's growth;
     * throw speed and ninjutsu are not reset, so they keep growing on
     * every call.
     */
    method CalculateLevel() returns (l: int)
      modifies this`maxHp, this`maxMana, this`speed, this`attackRange, this`manaRegeneration,
               this`throwSpeed, this`ninjutsu
      ensures l == LevelOf(experience) && LevelStats(l)
      ensures throwSpeed == old(throwSpeed) + 0.1 * (l - 1) as real
      ensures ninjutsu == old(ninjutsu) + 0.2 * (l - 1) as real
    {
      l := 1;
      maxHp := 60;
      maxMana := 55;
      speed := 55;
      attackRange := 350;
      manaRegeneration := 5.5;
      while !Below(experience, l)
        invariant l >= 1
        invariant forall k :: 1 <= k < l ==> !Below(experience, k)
        invariant LevelStats(l)
        invariant throwSpeed == old(throwSpeed) + 0.1 * (l - 1) as real
        invariant ninjutsu == old(ninjutsu) + 0.2 * (l - 1) as real
        decreases 3 * experience - 300 * (l - 1)
      {
        CurveAtLeastLinear(l);
        l := l + 1;
        maxHp := maxHp + 5;
        maxMana := maxMana + 5;
        speed := speed + 3;
        attackRange := attackRange + 5;
        manaRegeneration := manaRegeneration + 0.1;
        throwSpeed := throwSpeed + 0.1;
        ninjutsu := ninjutsu + 0.2;
      }
      LevelUnique(experience, l, LevelOf(experience));
    }

    /** `load_state`. */
    method LoadState(state: SaveState)
      modifies this`experience, this`hp, this`maxHp, this`mana, this`maxMana, this`inventory, this`gold
      ensures Snap() == Loaded(old(Snap()), state)
    {
      if !state.IsEmpty() {
        experience := GetOr(state.experience, experience);
        hp := GetOr(state.hp, hp);
        maxHp := GetOr(state.maxHp, maxHp);
        mana := GetOr(state.mana, mana);
        maxMana := GetOr(state.maxMana, maxMana);
        inventory := GetOr(state.inventory, inventory);
        gold := GetOr(state.gold, gold);
        gold := GetOr(state.gold, 0);
      }
    }

    /** `save_state`. */
    function SaveStateOf(): (st: SaveState)
      reads this
      ensures Loaded(Snap(), st) == Snap()
    {
      Saved(Snap())
    }

    /** `update_direction`: the facing rule on the given vector. */
    method UpdateDirection(v: Vec)
      modifies this`lastDirection
      ensures lastDirection == Facing(v.x, v.y)
      ensures Abs(v.x) > Abs(v.y) ==> lastDirection in {Left, Right}
      ensures Abs(v.x) <= Abs(v.y) ==> lastDirection in {Up, Down}
    {
      lastDirection := Facing(v.x, v.y);
    }

    /** `regenerate_mana`: mana and hp grow with time, capped at their maxima. */
    method RegenerateMana(dt: real)
      modifies this`mana, this`hp
      ensures mana == Regen(old(mana), manaRegeneration, dt, maxMana as real)
      ensures hp == Regen(old(hp), hpRegeneration, dt, maxHp as real)
      ensures mana <= maxMana as real && hp <= maxHp as real
    {
      mana := mana + manaRegeneration * dt;
      mana := if mana <= maxMana as real then mana else maxMana as real;
      hp := hp + hpRegeneration * dt;
      hp := if hp <= maxHp as real then hp else maxHp as real;
    }

    /**
     * `find_closest_enemy(max_distance)`: the nearest enemy within the
     * distance, the circle included; the first of equally near ones wins.
     */
    method FindClosestEnemy(enemies: seq<Point>, maxDistance: nat) returns (found: Option<nat>)
      ensures found.None? <==> forall k :: 0 <= k < |enemies| ==> !InReach(DistSq(rect.Center(), enemies[k]), maxDistance, true)
      ensures found.Some? ==> found.value < |enemies| && InReach(DistSq(rect.Center(), enemies[found.value]), maxDistance, true)
      ensures found.Some? ==> forall k :: 0 <= k < |enemies| && InReach(DistSq(rect.Center(), enemies[k]), maxDistance, true) ==>
        DistSq(rect.Center(), enemies[found.value]) <= DistSq(rect.Center(), enemies[k])
      ensures found.Some? ==> forall k :: 0 <= k < found.value ==>
        DistSq(rect.Center(), enemies[found.value]) < DistSq(rect.Center(), enemies[k])
      ensures found.Some? ==> IsClosest(rect.Center(), enemies, maxDistance, true, found.value)
    {
      found := ClosestIndex(rect.Center(), enemies, maxDistance, true);
    }

    /** `absorb_item`: the item goes to its slot (see `Slotted`). */
    method AbsorbItem(item: string) returns (error: Option<PyError>)
      modifies this`inventory
      ensures Slotted(old(inventory), item).Ok? ==> error.None? && inventory == Slotted(old(inventory), item).value
      ensures Slotted(old(inventory), item).Err? ==> error == Some(Slotted(old(inventory), item).error) && inventory == old(inventory)
    {
      var r := Slotted(inventory, item);
      if r.Ok? {
        inventory := r.value;
        error := None;
      } else {
        error := Some(r.error);
      }
    }

    /**
     * `medium_attack`: with an enemy within 900 px, at least 10 mana and the
     * enemy not on the player's centre, a player-side fireball (blast 20 over
     * 200 px) is thrown at it for 10 mana; otherwise nothing happens.
     */
    method MediumAttack(enemies: seq<Point>) returns (shot: Option<MediumShot>)
      modifies this`mana
      ensures shot.Some? ==> mana == old(mana) - 10.0 && old(mana) >= 10.0
      ensures shot.None? ==> mana == old(mana)
      ensures shot.Some? ==>
        && shot.value.origin == rect.Center() && shot.value.throwSpeed == throwSpeed
        && shot.value.explosionDamage == 20 && shot.value.explosionRadius == 200
        && (shot.value.dx != 0 || shot.value.dy != 0)
        && Point(rect.Center().x + shot.value.dx, rect.Center().y + shot.value.dy) in enemies
        && InReach(DistSq(rect.Center(), Point(rect.Center().x + shot.value.dx, rect.Center().y + shot.value.dy)), SpecialReach, true)
      ensures shot.None? && old(mana) >= 10.0 ==>
        rect.Center() in enemies || forall k :: 0 <= k < |enemies| ==> !InReach(DistSq(rect.Center(), enemies[k]), SpecialReach, true)
      ensures shot.Some? ==>
        exists k: nat :: IsClosest(rect.Center(), enemies, SpecialReach, true, k) &&
          Point(rect.Center().x + shot.value.dx, rect.Center().y + shot.value.dy) == enemies[k]
      ensures shot.None? && old(mana) >= 10.0 ==>
        forall k: nat :: IsClosest(rect.Center(), enemies, SpecialReach, true, k) ==> enemies[k] == rect.Center()
    {
      shot := None;
      var c := rect.Center();
      var found := ClosestIndex(c, enemies, SpecialReach, true);
      if found.Some? && mana >= 10.0 {
        var e := enemies[found.value];
        assert IsClosest(c, enemies, SpecialReach, true, found.value);
        if e != c {
          shot := Some(MediumShot(c, e.x - c.x, e.y - c.y, throwSpeed, 20, 200));
          assert Point(c.x + (e.x - c.x), c.y + (e.y - c.y)) == e;
          mana := mana - 10.0;
        }
      }
      forall k: nat | shot.None? && mana >= 10.0 && IsClosest(c, enemies, SpecialReach, true, k)
        ensures enemies[k] == c
      {
        if found.Some? {
          ClosestIsUnique(c, enemies, SpecialReach, true, k, found.value);
        }
      }
    }

    /**
     * `strong_attack` with `perform_raikiri_attack`: 30 mana are spent and
     * the player becomes invincible; with an enemy within 900 px it is
     * locked on for at most 5 s, otherwise the Raikiri state is reset at
     * once, which also ends the invincibility.
     */
    method StrongAttack(now: int, enemies: seq<Point>)
      modifies this`performingSpecial, this`invincible, this`raikiriStart, this`mana, this`pose,
               this`raikiriTarget, this`raikiriEnd, this`raikiriAnimationComplete
      ensures mana == old(mana) - 30.0
      ensures raikiriTarget.Some? <==> exists k :: 0 <= k < |enemies| && InReach(DistSq(rect.Center(), enemies[k]), SpecialReach, true)
      ensures raikiriTarget.Some? ==>
        && performingSpecial && invincible && raikiriStart == now && raikiriEnd == now + RaikiriMaxDuration
        && !raikiriAnimationComplete && pose == Raikiri(lastDirection) && raikiriTarget.value in enemies
        && InReach(DistSq(rect.Center(), raikiriTarget.value), SpecialReach, true)
        && exists k: nat :: IsClosest(rect.Center(), enemies, SpecialReach, true, k) && raikiriTarget.value == enemies[k]
      ensures raikiriTarget.None? ==>
        !performingSpecial && !invincible && !raikiriAnimationComplete && pose == Standing(lastDirection)
    {
      performingSpecial := true;
      invincible := true;
      raikiriStart := now;
      mana := mana - 30.0;
      pose := Raikiri(lastDirection);
      var found := FindClosestEnemy(enemies, SpecialReach);
      if found.Some? {
        raikiriTarget := Some(enemies[found.value]);
        assert IsClosest(rect.Center(), enemies, SpecialReach, true, found.value);
        raikiriStart := now;
        raikiriEnd := now + RaikiriMaxDuration;
        raikiriAnimationComplete := false;
      } else {
        performingSpecial := false;
        raikiriTarget := None;
        invincible := false;
        raikiriAnimationComplete := false;
        pose := Standing(lastDirection);
      }
    }

    /**
     * `perform_special_attack`: the charge time picks the tier, and the mana
     * test of that tier decides whether it starts.
     */
    method PerformSpecialAttack(chargeTime: int, now: int, enemies: seq<Point>)
      returns (tier: Tier, shot: Option<MediumShot>)
      modifies this`performingSpecial, this`invincible, this`raikiriStart, this`mana, this`pose,
               this`raikiriTarget, this`raikiriEnd, this`raikiriAnimationComplete
      ensures tier == ChargeTier(chargeTime, old(mana))
      ensures tier == NoSpecial ==> mana == old(mana) && shot.None?
      ensures tier == MediumSpecial ==> (shot.Some? ==> mana == old(mana) - 10.0) && (shot.None? ==> mana == old(mana))
      ensures tier == StrongSpecial ==> mana == old(mana) - 30.0 && shot.None?
      ensures tier != StrongSpecial ==>
        && raikiriTarget == old(raikiriTarget) && invincible == old(invincible)
        && performingSpecial == old(performingSpecial) && raikiriStart == old(raikiriStart)
        && raikiriEnd == old(raikiriEnd) && pose == old(pose)
        && raikiriAnimationComplete == old(raikiriAnimationComplete)
      ensures tier == MediumSpecial && shot.Some? ==>
        && shot.value.origin == rect.Center() && shot.value.throwSpeed == throwSpeed
        && shot.value.explosionDamage == 20 && shot.value.explosionRadius == 200
        && exists k: nat :: IsClosest(rect.Center(), enemies, SpecialReach, true, k) &&
             Point(rect.Center().x + shot.value.dx, rect.Center().y + shot.value.dy) == enemies[k]
      ensures tier == MediumSpecial && shot.None? ==>
        forall k: nat :: IsClosest(rect.Center(), enemies, SpecialReach, true, k) ==> enemies[k] == rect.Center()
      ensures tier == StrongSpecial ==>
        (raikiriTarget.Some? <==> exists k :: 0 <= k < |enemies| && InReach(DistSq(rect.Center(), enemies[k]), SpecialReach, true))
      ensures tier == StrongSpecial && raikiriTarget.Some? ==>
        && performingSpecial && invincible && raikiriStart == now && raikiriEnd == now + RaikiriMaxDuration
        && !raikiriAnimationComplete && pose == Raikiri(lastDirection)
        && exists k: nat :: IsClosest(rect.Center(), enemies, SpecialReach, true, k) && raikiriTarget.value == enemies[k]
      ensures tier == StrongSpecial && raikiriTarget.None? ==>
        !performingSpecial && !invincible && !raikiriAnimationComplete && pose == Standing(lastDirection)
    {
      tier := ChargeTier(chargeTime, mana);
      shot := None;
      if tier == MediumSpecial {
        shot := MediumAttack(enemies);
      } else if tier == StrongSpecial {
        StrongAttack(now, enemies);
      }
    }

    /**
     * `take_damage`: while invincible nothing happens (`blood` is None).
     * Otherwise a Kawarimi draw below 0.22 jumps the player 128 px and
     * refunds the damage, the damage is taken, and a blood splash of
     * `int(2 * amount)` is requested; at hp ≤ 0 the sprite is killed, else
     * the player becomes invincible and is knocked back.
     */
    method TakeDamage(amount: real, knock: Vec, now: int, kawarimiDraw: real, pick: nat)
      returns (blood: Option<int>)
      requires pick < |Cardinals|
      modifies this`hp, this`rect, this`alive, this`invincible, this`invincibleStart,
               this`knockbackVelocity, this`knockedBack, this`knockbackStart
      ensures old(invincible) ==>
        blood.None? && hp == old(hp) && rect == old(rect) && alive == old(alive) && invincible
        && knockedBack == old(knockedBack) && knockbackStart == old(knockbackStart)
        && invincibleStart == old(invincibleStart) && knockbackVelocity == old(knockbackVelocity)
      ensures !old(invincible) ==>
        && blood == Some(Trunc(amount * 2.0))
        && (kawarimiDraw < 0.22 ==>
              hp == old(hp) && rect == old(rect).Move(KawarimiDistance * Cardinals[pick].0, KawarimiDistance * Cardinals[pick].1))
        && (kawarimiDraw >= 0.22 ==> hp == old(hp) - amount && rect == old(rect))
        && (hp <= 0.0 ==>
              !alive && invincible == old(invincible) && invincibleStart == old(invincibleStart) &&
              knockedBack == old(knockedBack) && knockbackStart == old(knockbackStart) &&
              knockbackVelocity == old(knockbackVelocity))
        && (hp > 0.0 ==>
              alive == old(alive) && invincible && invincibleStart == now && knockedBack &&
              knockbackStart == now && knockbackVelocity == Vec(knock.x * 200.0, knock.y * 200.0))
    {
      blood := None;
      if !invincible {
        if kawarimiDraw < 0.22 {
          rect := rect.Move(KawarimiDistance * Cardinals[pick].0, KawarimiDistance * Cardinals[pick].1);
          hp := hp + amount;
        }
        hp := hp - amount;
        blood := Some(Trunc(amount * 2.0));
        if hp <= 0.0 {
          alive := false;
        } else {
          invincible := true;
          invincibleStart := now;
          knockbackVelocity := Vec(knock.x * 200.0, knock.y * 200.0);
          knockedBack := true;
          knockbackStart := now;
        }
      }
    }

    /** `borderless`: see `PlayerWrap`. */
    method Borderless(tileSize: int, mapWidth: int, mapHeight: int)
      requires tileSize >= 0 && mapWidth >= 0 && mapHeight >= 0
      modifies this`rect
      ensures rect == PlayerWrap(old(rect), tileSize, mapWidth, mapHeight)
    {
      if rect.RightEdge() > (mapWidth + 1) * tileSize {
        rect := rect.(left := 0);
      } else if rect.left < 0 {
        rect := rect.(left := mapWidth * tileSize);
      }
      if rect.top > mapHeight * tileSize {
        rect := rect.(top := 0);
      } else if rect.BottomEdge() < 0 {
        rect := rect.(top := mapHeight * tileSize - rect.height);
      }
    }

    /**
     * `handle_melee_attack` with `perform_melee_attack`: more than 500 ms
     * after the last swing the player swings again. A fist punches (or, on
     * `kick`, kicks) for 10 within 50 px, a sword slashes for 20 within 70
     * px, any other melee slot only plays the animation; `hits` lists the
     * enemies the swing damages, in scan order.
     */
    method HandleMeleeAttack(now: int, kick: bool, enemies: seq<Rect>) returns (strike: Option<Strike>, hits: seq<nat>)
      modifies this`lastMeleeTime, this`isAttacking, this`attackStart, this`pose
      ensures now - old(lastMeleeTime) <= MeleeCooldown ==>
        strike.None? && hits == [] && lastMeleeTime == old(lastMeleeTime) && isAttacking == old(isAttacking)
      ensures now - old(lastMeleeTime) > MeleeCooldown ==>
        && lastMeleeTime == now && isAttacking && attackStart == now
        && pose == (if inventory.melee == Some(Fist) && kick then Kicking(lastDirection) else Striking(lastDirection))
        && (inventory.melee == Some(Fist) ==> strike == Some(Strike(Fist, 10, 50, StrikeArea(rect.Center(), lastDirection, 50))))
        && (inventory.melee == Some(Sword) ==> strike == Some(Strike(Sword, 20, 70, StrikeArea(rect.Center(), lastDirection, 70))))
        && (inventory.melee !in {Some(Fist), Some(Sword)} ==> strike.None?)
      ensures strike.Some? ==> hits == StruckIndices(strike.value.area, rect.Center(), enemies)
      ensures strike.None? ==> hits == []
    {
      strike := None;
      hits := [];
      if now - lastMeleeTime > MeleeCooldown {
        lastMeleeTime := now;
        isAttacking := true;
        attackStart := now;
        pose := if inventory.melee == Some(Fist) && kick then Kicking(lastDirection) else Striking(lastDirection);
        if inventory.melee == Some(Fist) {
          strike := Some(Strike(Fist, 10, 50, StrikeArea(rect.Center(), lastDirection, 50)));
        } else if inventory.melee == Some(Sword) {
          strike := Some(Strike(Sword, 20, 70, StrikeArea(rect.Center(), lastDirection, 70)));
        }
        if strike.Some? {
          hits := ScanStrike(strike.value.area, enemies);
        }
      }
    }

    /** The enemy loop of `check_melee_collisions`. */
    method ScanStrike(area: Rect, enemies: seq<Rect>) returns (hits: seq<nat>)
      ensures hits == StruckIndices(area, rect.Center(), enemies)
    {
      hits := [];
      var i := 0;
      while i < |enemies|
        invariant 0 <= i <= |enemies|
        invariant hits == StruckIndices(area, rect.Center(), enemies[..i])
      {
        assert enemies[..i + 1][..i] == enemies[..i];
        if Struck(area, rect.Center(), enemies[i]) {
          hits := hits + [i];
        }
        i := i + 1;
      }
      assert enemies[..|enemies|] == enemies;
    }
  }
}

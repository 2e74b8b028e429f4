/**
 * The game's constant tables: levels, weapons, monsters, allies, drops,
 * missions and ninjutsu. Each dictionary becomes a lookup function that
 * answers None for a missing key, as `dict.get` does.
 */
module Settings {
  import opened Wrappers

  const ScreenWidth: int := 1200
  const ScreenHeight: int := 900
  const Fps: int := 60
  /** Side of one map tile in pixels. */
  const TileSize: int := 32

  // ---------------------------------------------------------------- levels

  datatype LevelInfo = LevelInfo(cols: int, rows: int, numEnemies: int, experience: int)

  const LevelTable: seq<LevelInfo> := [
    LevelInfo(30, 23, 1, 350), LevelInfo(40, 33, 2, 150), LevelInfo(40, 33, 3, 200),
    LevelInfo(40, 33, 4, 400), LevelInfo(40, 33, 5, 400), LevelInfo(40, 33, 7, 500),
    LevelInfo(40, 33, 9, 500), LevelInfo(40, 33, 11, 680), LevelInfo(40, 33, 13, 600),
    LevelInfo(50, 33, 15, 620), LevelInfo(50, 33, 20, 640), LevelInfo(50, 33, 22, 660),
    LevelInfo(50, 33, 25, 680), LevelInfo(50, 33, 30, 600), LevelInfo(50, 33, 33, 620),
    LevelInfo(50, 33, 35, 640), LevelInfo(50, 33, 38, 660), LevelInfo(50, 33, 40, 680),
    LevelInfo(50, 33, 43, 600), LevelInfo(60, 33, 45, 620), LevelInfo(60, 33, 48, 640),
    LevelInfo(60, 33, 50, 660), LevelInfo(60, 33, 55, 680), LevelInfo(60, 33, 55, 1000),
    LevelInfo(60, 33, 55, 1020), LevelInfo(60, 33, 55, 1040), LevelInfo(60, 33, 55, 1060),
    LevelInfo(60, 33, 55, 1080), LevelInfo(80, 33, 55, 1000), LevelInfo(80, 33, 55, 1000)
  ]

  /** `level_data.get(n)`: the table is keyed by the level numbers 1 to 30. */
  function LevelData(n: int): Option<LevelInfo>
  {
    if 1 <= n <= |LevelTable| then Some(LevelTable[n - 1]) else None
  }

  /** The keys of level_data are exactly 1..30; in particular there is no level 31. */
  lemma LevelKeys(n: int)
    ensures LevelData(n).Some? <==> 1 <= n <= 30
    ensures LevelData(n).Some? ==> LevelData(n).value.numEnemies >= 1 && LevelData(n).value.cols > 0 && LevelData(n).value.rows > 0
  {
  }

  /** Consecutive levels never have fewer enemies. */
  lemma NumEnemiesStep(n: int)
    requires 1 <= n < 30
    ensures LevelData(n).value.numEnemies <= LevelData(n + 1).value.numEnemies
  {
  }

  /** The number of enemies is non-decreasing across the whole level table. */
  lemma {:induction false} NumEnemiesMonotone(m: int, n: int)
    requires 1 <= m <= n <= 30
    ensures LevelData(m).value.numEnemies <= LevelData(n).value.numEnemies
    decreases n - m
  {
    if m < n {
      NumEnemiesStep(m);
      NumEnemiesMonotone(m + 1, n);
    }
  }

  // --------------------------------------------------------------- weapons

  datatype WeaponKind = Melee | Ranged

  datatype Weapon = Fist | Sword | Kunai | Shuriken | Fuuma | Fireball | PoisonKunai

  /** One weapon_data entry; a key the entry does not have is None. */
  datatype WeaponEntry = WeaponEntry(
    damage: int,
    cooldown: Option<int>,
    speed: Option<int>,
    kind: Option<WeaponKind>,
    rotating: Option<bool>,
    indestructible: Option<bool>)

  function WeaponName(w: Weapon): string
  {
    match w
    case Fist => "fist"
    case Sword => "sword"
    case Kunai => "kunai"
    case Shuriken => "shuriken"
    case Fuuma => "fuuma"
    case Fireball => "fireball"
    case PoisonKunai => "poison_kunai"
  }

  /** The weapon_data key lookup: a name that is not a key gives None. */
  function WeaponNamed(name: string): Option<Weapon>
  {
    if name == "fist" then Some(Fist)
    else if name == "sword" then Some(Sword)
    else if name == "kunai" then Some(Kunai)
    else if name == "shuriken" then Some(Shuriken)
    else if name == "fuuma" then Some(Fuuma)
    else if name == "fireball" then Some(Fireball)
    else if name == "poison_kunai" then Some(PoisonKunai)
    else None
  }

  /** Names and weapons correspond one to one. */
  lemma WeaponNameRoundTrip(w: Weapon, name: string)
    ensures WeaponNamed(WeaponName(w)) == Some(w)
    ensures WeaponNamed(name) == Some(w) ==> WeaponName(w) == name
  {
    match w
    case Fist =>
    case Sword =>
    case Kunai =>
    case Shuriken =>
    case Fuuma =>
    case Fireball =>
    case PoisonKunai =>
  }

  function WeaponData(w: Weapon): WeaponEntry
  {
    match w
    case Fist => WeaponEntry(4, Some(300), None, Some(Melee), None, None)
    case Sword => WeaponEntry(20, Some(600), None, Some(Melee), None, None)
    case Kunai => WeaponEntry(8, Some(2500), Some(140), Some(Ranged), Some(false), Some(false))
    case Shuriken => WeaponEntry(5, Some(2500), Some(150), Some(Ranged), Some(true), Some(false))
    case Fuuma => WeaponEntry(15, Some(3000), Some(110), Some(Ranged), Some(true), Some(true))
    case Fireball => WeaponEntry(45, None, Some(150), None, Some(true), Some(true))
    case PoisonKunai => WeaponEntry(35, Some(2500), Some(180), Some(Ranged), Some(false), Some(false))
  }

  /** `weapon_data.get(type, {}).get('indestructible', False)`. */
  predicate Indestructible(w: Weapon)
  {
    WeaponData(w).indestructible == Some(true)
  }

  /** Only the fuuma and the fireball survive a projectile-projectile collision. */
  lemma IndestructibleWeapons(w: Weapon)
    ensures Indestructible(w) <==> w == Fuuma || w == Fireball
  {
  }

  /** The fireball is the one entry with neither a cooldown nor a type. */
  lemma FireballIsUntyped(w: Weapon)
    ensures WeaponData(w).cooldown.None? <==> w == Fireball
    ensures WeaponData(w).kind.None? <==> w == Fireball
  {
  }

  /** Exactly the melee weapons lack a projectile speed. */
  lemma ThrowableWeapons(w: Weapon)
    ensures WeaponData(w).speed.Some? <==> WeaponData(w).kind != Some(Melee)
  {
  }

  // ------------------------------------------------------ monsters, allies

  /** One monster_data or ally_data entry. */
  datatype CombatantData = CombatantData(
    hp: int, speed: int, behavior: string, visionRadius: int,
    experience: int, meleeSkill: int, defenseSkill: int)

  function MonsterData(name: string): Option<CombatantData>
  {
    if name == "Dorobou" then Some(CombatantData(200, 40, "aggressive", 250, 50, 20, 10))
    else if name == "Hoshi" then Some(CombatantData(100, 45, "defensive", 350, 70, 5, 1))
    else if name == "Katsu" then Some(CombatantData(80, 75, "aggressive", 300, 65, 15, 8))
    else None
  }

  /** The keys of ally_data, in insertion order. */
  const AllyNames: seq<string> := ["Aburame Assassin", "Aburame Anbu", "Unknown Assassin"]

  function AllyData(name: string): Option<CombatantData>
  {
    if name == "Aburame Assassin" then Some(CombatantData(150, 40, "defensive", 550, 50, 20, 10))
    else if name == "Aburame Anbu" then Some(CombatantData(100, 45, "defensive", 450, 70, 5, 1))
    else if name == "Unknown Assassin" then Some(CombatantData(150, 45, "defensive", 400, 65, 15, 8))
    else None
  }

  /** Every behaviour in the two tables is one the movement rules know. */
  lemma BehaviorsKnown(name: string)
    ensures MonsterData(name).Some? ==> MonsterData(name).value.behavior in {"aggressive", "defensive"}
    ensures AllyData(name).Some? ==> AllyData(name).value.behavior in {"aggressive", "defensive"}
    ensures AllyData(name).Some? <==> name in AllyNames
  {
  }

  // ----------------------------------------------------------------- drops

  /** The keys of drop_data, in insertion order. */
  const DropItems: seq<string> := ["sword", "kunai", "shuriken", "fuuma"]

  /** Every droppable item is a weapon that has a slot type. */
  lemma DropsAreTypedWeapons(i: nat)
    requires i < |DropItems|
    ensures WeaponNamed(DropItems[i]).Some? && WeaponData(WeaponNamed(DropItems[i]).value).kind.Some?
  {
  }

  // -------------------------------------------------------------- missions

  datatype Mission = Mission(name: string, levels: seq<int>, goldReward: int)

  const MissionTable: seq<Mission> := [
    Mission("Rookie Challenge", [1, 2, 3], 100),
    Mission("Forest Expedition", [4, 5, 6], 200),
    Mission("Mountain Assault", [7, 8, 9], 300)
  ]

  /** `mission_data.get(k)`, keyed 1 to 3. */
  function MissionData(k: int): Option<Mission>
  {
    if 1 <= k <= |MissionTable| then Some(MissionTable[k - 1]) else None
  }

  /** No two missions share a level and every mission level exists. */
  lemma MissionsPartitionLevels(a: int, b: int, l: int)
    requires MissionData(a).Some? && MissionData(b).Some? && a != b
    ensures l in MissionData(a).value.levels ==> l !in MissionData(b).value.levels
    ensures l in MissionData(a).value.levels ==> LevelData(l).Some?
  {
  }

  // -------------------------------------------------------------- ninjutsu

  datatype Element = Fire | Water | Earth | Lightning | Wind

  /** The keys of ninjutsu_data, in insertion order. */
  const Elements: seq<Element> := [Fire, Water, Earth, Lightning, Wind]

  datatype Jutsu = Jutsu(name: string, manaCost: int, damage: int, defense: Option<int>)

  /** The jutsu of one element, in insertion order. */
  function JutsuPool(e: Element): seq<Jutsu>
  {
    match e
    case Fire => [Jutsu("Fireball Jutsu", 30, 50, None), Jutsu("Phoenix Flower Jutsu", 45, 70, None),
                  Jutsu("Great Fire Annihilation", 80, 120, None), Jutsu("Fire Dragon Flame Bullet", 60, 90, None)]
    case Water => [Jutsu("Water Bullet", 25, 40, None), Jutsu("Water Dragon Jutsu", 55, 80, None),
                   Jutsu("Giant Vortex Jutsu", 70, 100, None), Jutsu("Water Shark Bomb", 50, 75, None)]
    case Earth => [Jutsu("Earth Wall", 35, 0, Some(60)), Jutsu("Earth Spikes", 40, 60, None),
                   Jutsu("Earth Flow River", 55, 70, None), Jutsu("Earth Golem", 90, 110, None)]
    case Lightning => [Jutsu("Chidori", 50, 85, None), Jutsu("Lightning Ball", 35, 55, None),
                       Jutsu("Kirin", 100, 150, None), Jutsu("Lightning Beast Tracking Fang", 65, 95, None)]
    case Wind => [Jutsu("Wind Blade", 30, 45, None), Jutsu("Great Breakthrough", 45, 65, None),
                  Jutsu("Rasenshuriken", 85, 130, None), Jutsu("Wind Cutter", 55, 80, None)]
  }

  /** Every element offers four jutsu under four different names. */
  lemma JutsuPoolShape(e: Element)
    ensures |JutsuPool(e)| == 4
    ensures forall i, j :: 0 <= i < j < 4 ==> JutsuPool(e)[i].name != JutsuPool(e)[j].name
  {
  }

  /** Earth Wall is the one jutsu that deals no damage; it gives defense 60 instead. */
  lemma EarthWallIsDefensive(e: Element, i: nat)
    requires i < |JutsuPool(e)|
    ensures JutsuPool(e)[i].damage == 0 <==> JutsuPool(e)[i].name == "Earth Wall"
    ensures JutsuPool(e)[i].name == "Earth Wall" ==> e == Earth && JutsuPool(e)[i].defense == Some(60)
  {
  }
}

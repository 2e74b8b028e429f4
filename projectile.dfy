/**
 * Thrown weapons and fireballs: their table-derived stats, per-frame movement
 * and spin, the off-map kill rule, the fireball's collision priorities and the
 * explosion's choice of victims.
 */
module Projectiles {
  import opened Wrappers
  import opened Geometry
  import opened Settings

  /** Whose projectile it is: thrown by the player's side or by the enemies. */
  datatype Side = PlayerSide | EnemySide

  /** What a projectile's frame does to the world, in the order it happens. */
  datatype Event =
    | Explode(at: Point)
    | EnemyHit(enemy: nat, amount: int)
    | PlayerHit(amount: int)
    | AllyHit(amount: int)
    | Killed

  /** The stats the constructor reads from weapon_data. */
  datatype Stats = Stats(speed: real, damage: int, indestructible: bool, rotating: bool)

  /**
   * The constructor's table lookups. A type without a 'speed' (the melee
   * weapons) raises KeyError; the optional keys read as false when missing.
   */
  function StatsFor(kind: Weapon, throwSpeed: real): (r: Result<Stats>)
    ensures r.Err? <==> kind in {Fist, Sword}
    ensures r.Ok? ==> r.value.speed == WeaponData(kind).speed.value as real * throwSpeed
    ensures r.Ok? ==> r.value.damage == WeaponData(kind).damage
    ensures r.Ok? ==> (r.value.indestructible <==> kind in {Fuuma, Fireball})
    ensures r.Ok? ==> (r.value.rotating <==> kind in {Shuriken, Fuuma, Fireball})
  {
    var e := WeaponData(kind);
    if e.speed.None? then Err(KeyError("speed"))
    else Ok(Stats(e.speed.value as real * throwSpeed, e.damage,
                  e.indestructible == Some(true), e.rotating == Some(true)))
  }

  /** The map rectangle widened by 160 pixels on every side. */
  function KeepZone(gridWidth: int, gridHeight: int): Rect
    requires gridWidth >= 0 && gridHeight >= 0
  {
    Rect(-160, -160, gridWidth * TileSize + 320, gridHeight * TileSize + 320)
  }

  /** The `check_bounds` kill test. */
  predicate OutOfBounds(r: Rect, gridWidth: int, gridHeight: int)
  {
    r.RightEdge() < -160 || r.left > gridWidth * TileSize + 160 ||
    r.BottomEdge() < -160 || r.top > gridHeight * TileSize + 160
  }

  /** Two rects touch when their closed extents overlap on both axes. */
  predicate Touches(a: Rect, b: Rect)
  {
    a.RightEdge() >= b.left && a.left <= b.RightEdge() && a.BottomEdge() >= b.top && a.top <= b.BottomEdge()
  }

  /** A projectile is killed exactly when it lies wholly outside the widened map. */
  lemma OutOfBoundsMeansOutside(r: Rect, gridWidth: int, gridHeight: int)
    requires gridWidth >= 0 && gridHeight >= 0
    ensures OutOfBounds(r, gridWidth, gridHeight) <==> !Touches(r, KeepZone(gridWidth, gridHeight))
  {
  }

  /** `distance <= radius`, on squared distances; a negative radius reaches nothing. */
  predicate InBlast(center: Point, radius: int, p: Point)
  {
    radius >= 0 && DistSq(center, p) <= radius * radius
  }

  /** The enemies an explosion reaches, by their index in the enemy group. */
  function EnemiesInBlast(center: Point, radius: int, enemies: seq<Point>): seq<nat>
  {
    if enemies == [] then []
    else EnemiesInBlast(center, radius, enemies[..|enemies| - 1]) +
         (if InBlast(center, radius, enemies[|enemies| - 1]) then [|enemies| - 1] else [])
  }

  /** Every reported victim is a valid index into the enemy group. */
  lemma {:induction false} EnemiesInBlastBounded(center: Point, radius: int, enemies: seq<Point>)
    ensures forall i :: 0 <= i < |EnemiesInBlast(center, radius, enemies)| ==> EnemiesInBlast(center, radius, enemies)[i] < |enemies|
  {
    if enemies != [] {
      EnemiesInBlastBounded(center, radius, enemies[..|enemies| - 1]);
    }
  }

  /** Exactly the enemies within the radius are hit. */
  lemma {:induction false} EnemiesInBlastExact(center: Point, radius: int, enemies: seq<Point>, k: nat)
    ensures k in EnemiesInBlast(center, radius, enemies) <==> k < |enemies| && InBlast(center, radius, enemies[k])
  {
    if enemies != [] {
      var init := enemies[..|enemies| - 1];
      EnemiesInBlastExact(center, radius, init, k);
      EnemiesInBlastBounded(center, radius, init);
      if k < |init| {
        assert enemies[k] == init[k];
      }
    }
  }

  /** Victims are listed once each, in group order. */
  lemma {:induction false} EnemiesInBlastOrdered(center: Point, radius: int, enemies: seq<Point>)
    ensures forall i, j :: 0 <= i < j < |EnemiesInBlast(center, radius, enemies)| ==>
      EnemiesInBlast(center, radius, enemies)[i] < EnemiesInBlast(center, radius, enemies)[j]
  {
    if enemies != [] {
      var init := enemies[..|enemies| - 1];
      EnemiesInBlastOrdered(center, radius, init);
      EnemiesInBlastBounded(center, radius, init);
    }
  }

  /**
   * What `create_explosion` does: a player-side explosion hurts every enemy
   * within the radius; an enemy-side one hurts only the player, and only
   * within the radius.
   */
  function ExplosionEvents(center: Point, side: Side, blastDamage: int, radius: int,
                           enemies: seq<Point>, player: Point): seq<Event>
  {
    [Explode(center)] +
    (if side == PlayerSide then HitsFor(EnemiesInBlast(center, radius, enemies), blastDamage)
     else if InBlast(center, radius, player) then [PlayerHit(blastDamage)] else [])
  }

  function HitsFor(victims: seq<nat>, amount: int): (hits: seq<Event>)
    ensures |hits| == |victims|
    ensures forall i :: 0 <= i < |victims| ==> hits[i] == EnemyHit(victims[i], amount)
  {
    if victims == [] then [] else [EnemyHit(victims[0], amount)] + HitsFor(victims[1..], amount)
  }

  /** The overlap facts a fireball's collision check reads, at its moved position. */
  datatype Scene = Scene(
    trunkHit: bool,          // mask overlap with a tree trunk
    playerHit: bool,         // mask overlap with the player
    playerJumping: bool,
    allyHit: bool,           // rect overlap with the ally
    wallHit: bool,           // rect overlap with an EarthWall effect
    enemyHits: seq<nat>,     // enemies whose mask overlaps, in group order
    enemies: seq<Point>,     // every enemy's centre, in group order
    player: Point)           // the player's centre

  /** The fireball's own view of itself in a collision check. */
  datatype Shot = Shot(center: Point, side: Side, damage: int, blastDamage: int, blastRadius: int)

  function Blast(s: Shot, scene: Scene): seq<Event>
  {
    ExplosionEvents(s.center, s.side, s.blastDamage, s.blastRadius, scene.enemies, scene.player)
  }

  /**
   * `fireball_collision_with_enemies` as written: the trunk, earth-wall and
   * enemy branches return after their hit, but the player and ally branches
   * fall through to the later checks after killing the fireball.
   */
  function FireballEventsAsWritten(s: Shot, scene: Scene): seq<Event>
  {
    if scene.trunkHit then Blast(s, scene) + [Killed]
    else if s.side == EnemySide && scene.playerHit && scene.playerJumping then []
    else
      var afterPlayer :=
        if s.side == EnemySide && scene.playerHit then Blast(s, scene) + [PlayerHit(s.damage), Killed] else [];
      if scene.allyHit && s.side == PlayerSide then afterPlayer
      else
        var afterAlly := afterPlayer + (if scene.allyHit then Blast(s, scene) + [AllyHit(s.damage), Killed] else []);
        if scene.wallHit then afterAlly + Blast(s, scene) + [Killed]
        else if s.side == PlayerSide && scene.enemyHits != [] then
          afterAlly + Blast(s, scene) + [EnemyHit(scene.enemyHits[0], s.damage), Killed]
        else afterAlly
  }

  /**
   * The same priorities with the first match ending the check: trunk, player
   * (enemy side, not jumping), ally, earth wall, then the first overlapping
   * enemy (player side only).
   */
  function FireballEvents(s: Shot, scene: Scene): seq<Event>
  {
    if scene.trunkHit then Blast(s, scene) + [Killed]
    else if s.side == EnemySide && scene.playerHit then
      (if scene.playerJumping then [] else Blast(s, scene) + [PlayerHit(s.damage), Killed])
    else if scene.allyHit then
      (if s.side == EnemySide then Blast(s, scene) + [AllyHit(s.damage), Killed] else [])
    else if scene.wallHit then Blast(s, scene) + [Killed]
    else if s.side == PlayerSide && scene.enemyHits != [] then
      Blast(s, scene) + [EnemyHit(scene.enemyHits[0], s.damage), Killed]
    else []
  }

  function CountExplosions(events: seq<Event>): nat
  {
    if events == [] then 0 else (if events[0].Explode? then 1 else 0) + CountExplosions(events[1..])
  }

  lemma {:induction false} CountExplosionsAppend(a: seq<Event>, b: seq<Event>)
    ensures CountExplosions(a + b) == CountExplosions(a) + CountExplosions(b)
  {
    if a == [] {
      assert a + b == b;
    } else {
      assert (a + b)[1..] == a[1..] + b;
      CountExplosionsAppend(a[1..], b);
    }
  }

  lemma {:induction false} HitsAreNotExplosions(victims: seq<nat>, amount: int)
    ensures CountExplosions(HitsFor(victims, amount)) == 0
  {
    if victims != [] {
      var h := HitsFor(victims, amount);
      assert h[1..] == HitsFor(victims[1..], amount);
      HitsAreNotExplosions(victims[1..], amount);
    }
  }

  lemma BlastExplodesOnce(s: Shot, scene: Scene)
    ensures CountExplosions(Blast(s, scene)) == 1
    ensures Blast(s, scene) != [] && Blast(s, scene)[0] == Explode(s.center)
  {
    var rest := if s.side == PlayerSide then HitsFor(EnemiesInBlast(s.center, s.blastRadius, scene.enemies), s.blastDamage)
                else if InBlast(s.center, s.blastRadius, scene.player) then [PlayerHit(s.blastDamage)] else [];
    assert Blast(s, scene) == [Explode(s.center)] + rest;
    CountExplosionsAppend([Explode(s.center)], rest);
    if s.side == PlayerSide {
      HitsAreNotExplosions(EnemiesInBlast(s.center, s.blastRadius, scene.enemies), s.blastDamage);
    } else if InBlast(s.center, s.blastRadius, scene.player) {
      assert CountExplosions(rest) == CountExplosions(rest[1..]);
    }
  }

  /**
   * With first-match priorities a fireball explodes at most once per frame,
   * and whenever it does it is also killed.
   */
  lemma FireballExplodesAtMostOnce(s: Shot, scene: Scene)
    ensures CountExplosions(FireballEvents(s, scene)) <= 1
    ensures CountExplosions(FireballEvents(s, scene)) == 1 ==> Killed in FireballEvents(s, scene)
  {
    var ev := FireballEvents(s, scene);
    BlastExplodesOnce(s, scene);
    var b := Blast(s, scene);
    if scene.trunkHit {
      CountExplosionsAppend(b, [Killed]);
    } else if s.side == EnemySide && scene.playerHit {
      if !scene.playerJumping { CountExplosionsAppend(b, [PlayerHit(s.damage), Killed]); }
    } else if scene.allyHit {
      if s.side == EnemySide { CountExplosionsAppend(b, [AllyHit(s.damage), Killed]); }
    } else if scene.wallHit {
      CountExplosionsAppend(b, [Killed]);
    } else if s.side == PlayerSide && scene.enemyHits != [] {
      CountExplosionsAppend(b, [EnemyHit(scene.enemyHits[0], s.damage), Killed]);
    }
    assert [Killed][0] == Killed;
  }

  /** Trunks come first: a trunk hit is one blast and a kill, whatever else overlaps. */
  lemma TrunkComesFirst(s: Shot, scene: Scene)
    requires scene.trunkHit
    ensures FireballEvents(s, scene) == Blast(s, scene) + [Killed]
    ensures FireballEventsAsWritten(s, scene) == FireballEvents(s, scene)
  {
  }

  /**
   * A player-side fireball passing the ally does nothing that frame, and an
   * enemy-side fireball never strikes an enemy directly.
   */
  lemma SidesRespected(s: Shot, scene: Scene, k: nat, amount: int)
    ensures s.side == PlayerSide && scene.allyHit && !scene.trunkHit ==> FireballEvents(s, scene) == []
    ensures s.side == EnemySide && !scene.trunkHit && !scene.wallHit && !scene.playerHit && !scene.allyHit ==>
      FireballEvents(s, scene) == []
  {
  }

  /**
   * The fall-through as written: an enemy fireball that hits the player and
   * overlaps the ally in the same frame explodes twice.
   */
  lemma DoubleExplosionAsWritten(s: Shot, scene: Scene)
    requires s.side == EnemySide && !scene.trunkHit && scene.playerHit && !scene.playerJumping
    requires scene.allyHit && !scene.wallHit
    ensures CountExplosions(FireballEventsAsWritten(s, scene)) == 2
    ensures CountExplosions(FireballEvents(s, scene)) == 1
  {
    var b := Blast(s, scene);
    BlastExplodesOnce(s, scene);
    var first := b + [PlayerHit(s.damage), Killed];
    var second := b + [AllyHit(s.damage), Killed];
    assert FireballEventsAsWritten(s, scene) == first + second;
    CountExplosionsAppend(first, second);
    CountExplosionsAppend(b, [PlayerHit(s.damage), Killed]);
    CountExplosionsAppend(b, [AllyHit(s.damage), Killed]);
    assert [PlayerHit(s.damage), Killed][1..] == [Killed];
    assert [AllyHit(s.damage), Killed][1..] == [Killed];
    assert [Killed][1..] == [];
    assert FireballEvents(s, scene) == first;
  }

  class Projectile {
    var rect: Rect
    const direction: Vec
    const speed: real
    const damage: int
    const side: Side
    const fromCollision: bool
    const kind: Weapon
    var explosionDamage: int
    var explosionRadius: int
    const isIndestructible: bool
    const rotating: bool
    var rotationAngle: int
    /** False once `kill()` has removed the sprite from its groups. */
    var alive: bool

    constructor (center: Point, width: nat, height: nat, direction: Vec, kind: Weapon,
                 throwSpeed: real, side: Side, fromCollision: bool)
      requires StatsFor(kind, throwSpeed).Ok?
      ensures var st := StatsFor(kind, throwSpeed).value;
        speed == st.speed && damage == st.damage && isIndestructible == st.indestructible && rotating == st.rotating
      ensures rect.Center() == center && this.direction == direction
      ensures this.kind == kind && this.side == side && this.fromCollision == fromCollision
      ensures explosionDamage == 35 && explosionRadius == 100
      ensures rotationAngle == 0 && alive
    {
      var st := StatsFor(kind, throwSpeed).value;
      rect := Rect(center.x - width / 2, center.y - height / 2, width, height);
      this.direction := direction;
      speed := st.speed;
      damage := st.damage;
      this.side := side;
      this.fromCollision := fromCollision;
      this.kind := kind;
      explosionDamage := 35;
      explosionRadius := 100;
      isIndestructible := st.indestructible;
      rotating := st.rotating;
      rotationAngle := 0;
      alive := true;
    }

    method Kill()
      modifies this`alive
      ensures !alive
    {
      alive := false;
    }

    /**
     * `create_explosion`: the loop over the enemy group; then, for an enemy
     * projectile, the player.
     */
    method CreateExplosion(enemies: seq<Point>, player: Point) returns (events: seq<Event>)
      ensures events == ExplosionEvents(rect.Center(), side, explosionDamage, explosionRadius, enemies, player)
    {
      var c := rect.Center();
      var victims: seq<nat> := [];
      var k := 0;
      while k < |enemies|
        invariant 0 <= k <= |enemies|
        invariant side == PlayerSide ==> victims == EnemiesInBlast(c, explosionRadius, enemies[..k])
        invariant side == EnemySide ==> victims == []
      {
        if side == PlayerSide && InBlast(c, explosionRadius, enemies[k]) {
          victims := victims + [k];
        }
        assert enemies[..k + 1][..k] == enemies[..k];
        k := k + 1;
      }
      assert enemies[..k] == enemies;
      events := [Explode(c)] + HitsFor(victims, explosionDamage);
      if side == EnemySide && InBlast(c, explosionRadius, player) {
        events := events + [PlayerHit(explosionDamage)];
      }
    }

    /**
     * One frame: move by direction × speed × dt (each coordinate truncated to
     * an integer), run a fireball's collision check, spin a rotating
     * projectile by 14 degrees, then kill it if it left the widened map.
     */
    method Update(dt: real, gridWidth: int, gridHeight: int, scene: Scene) returns (events: seq<Event>)
      modifies this`rect, this`rotationAngle, this`alive
      ensures rect == old(rect).(left := Trunc(old(rect).left as real + direction.x * speed * dt),
                                 top := Trunc(old(rect).top as real + direction.y * speed * dt))
      ensures Abs((rect.left - old(rect.left)) as real - direction.x * speed * dt) < 1.0
      ensures Abs((rect.top - old(rect.top)) as real - direction.y * speed * dt) < 1.0
      ensures events == if kind == Fireball
        then FireballEventsAsWritten(Shot(rect.Center(), side, damage, explosionDamage, explosionRadius), scene) else []
      ensures rotationAngle == old(rotationAngle) + (if rotating then 14 else 0)
      ensures alive == (old(alive) && Killed !in events && !OutOfBounds(rect, gridWidth, gridHeight))
    {
      rect := rect.(left := Trunc(rect.left as real + direction.x * speed * dt));
      rect := rect.(top := Trunc(rect.top as real + direction.y * speed * dt));
      events := [];
      if kind == Fireball {
        events := FireballEventsAsWritten(Shot(rect.Center(), side, damage, explosionDamage, explosionRadius), scene);
        if Killed in events {
          Kill();
        }
      }
      if rotating {
        rotationAngle := rotationAngle + 14;
      }
      if OutOfBounds(rect, gridWidth, gridHeight) {
        Kill();
      }
    }
  }
}

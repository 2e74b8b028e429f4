/**
 * Short-lived visual sprites with game-visible lifecycles: frame-counter
 * animations that remove themselves, blood particles, the insect swarm's
 * three-mode flight, and time-boxed ninjutsu effects.
 */
module Effects {
  import opened Wrappers
  import opened Geometry
  import Settings

  // ------------------------------------------------------------ MeleeEffect

  /** A fist sheet is 4 rows of 8 cells; frame i sits at (i // 8, i % 8). */
  function FistCell(i: nat): (rc: (nat, nat))
    requires i < 32
    ensures rc.0 < 4 && rc.1 < 8
    ensures rc.0 * 8 + rc.1 == i
  {
    (i / 8, i % 8)
  }

  /** Different fist frames use different cells of the sheet. */
  lemma FistCellsDistinct(i: nat, j: nat)
    requires i < 32 && j < 32 && i != j
    ensures FistCell(i) != FistCell(j)
  {
  }

  /** The punch or slash drawn for a melee attack, played once. */
  class MeleeEffect {
    const weapon: Settings.Weapon
    const animationTime: real
    const totalFrames: nat
    var currentSprite: nat
    var currentTime: real
    var alive: bool

    predicate Valid()
      reads this
    {
      currentSprite >= totalFrames ==> !alive
    }

    /** Only the fist and the sword have an effect sheet. */
    constructor (weapon: Settings.Weapon)
      requires weapon == Settings.Fist || weapon == Settings.Sword
      ensures Valid() && alive && currentSprite == 0 && currentTime == 0.0
      ensures totalFrames == (if weapon == Settings.Fist then 32 else 5) && animationTime == 0.05
    {
      this.weapon := weapon;
      animationTime := 0.05;
      totalFrames := if weapon == Settings.Fist then 32 else 5;
      currentSprite := 0;
      currentTime := 0.0;
      alive := true;
    }

    /** The sheet cell shown while alive (fist only). */
    function Cell(): (rc: (nat, nat))
      reads this
      requires Valid() && alive && weapon == Settings.Fist && totalFrames == 32
      ensures rc.0 * 8 + rc.1 == currentSprite
    {
      FistCell(currentSprite)
    }

    /** One frame per elapsed animation_time; the sprite dies on reaching total_frames. */
    method Update(dt: real)
      requires Valid()
      modifies this
      ensures Valid()
      ensures old(currentTime) + dt >= animationTime ==>
        currentTime == 0.0 && currentSprite == old(currentSprite) + 1 &&
        alive == (old(alive) && currentSprite < totalFrames)
      ensures old(currentTime) + dt < animationTime ==>
        currentTime == old(currentTime) + dt && currentSprite == old(currentSprite) && alive == old(alive)
    {
      currentTime := currentTime + dt;
      if currentTime >= animationTime {
        currentTime := 0.0;
        currentSprite := currentSprite + 1;
        if currentSprite >= totalFrames {
          alive := false;
        }
      }
    }
  }

  // ----------------------------------------- Spark, Puff, Explosion, Kawarimi

  /** The sheet sizes and frame times of the four looping-sheet effects. */
  datatype SheetKind = Spark | Puff | ExplosionSheet | KawarimiSheet

  function FrameCount(k: SheetKind): nat
  {
    match k
    case Spark => 4
    case Puff => 9
    case ExplosionSheet => 24
    case KawarimiSheet => 11
  }

  function FrameTime(k: SheetKind): real
  {
    if k == ExplosionSheet then 0.04 else 0.1
  }

  /** k frame advances `(i + 1) % n` from frame i. */
  function Advance(i: nat, n: nat, k: nat): nat
    requires n > 0
  {
    if k == 0 then i else (Advance(i, n, k - 1) + 1) % n
  }

  /**
   * From the first frame, the k-th advance shows frame k for every k < n, so
   * the last frame n − 1, where the sprite kills itself, is reached after
   * exactly n − 1 advances and no earlier.
   */
  lemma {:induction false} AdvanceCountsFrames(n: nat, k: nat)
    requires 0 < n && k < n
    ensures Advance(0, n, k) == k
  {
    if k > 0 {
      AdvanceCountsFrames(n, k - 1);
      SmallRemainder(k, n);
    }
  }

  lemma SmallRemainder(k: nat, n: nat)
    requires k < n
    ensures k % n == k
  {
  }

  /** A sheet animation that kills itself on its last frame; Kawarimi leaves a remains tile. */
  class SheetAnimation {
    const kind: SheetKind
    /** The position the effect was created at. */
    const pos: Point
    var currentSprite: nat
    var currentTime: real
    var alive: bool
    /** Where Kawarimi placed its remains tile, once it has. */
    var remains: Option<Point>

    predicate Valid()
      reads this
    {
      currentSprite < FrameCount(kind) && (remains.Some? ==> kind == KawarimiSheet)
    }

    constructor (kind: SheetKind, pos: Point)
      ensures Valid() && alive && currentSprite == 0 && currentTime == 0.0 && remains.None?
      ensures this.kind == kind && this.pos == pos
    {
      this.kind := kind;
      this.pos := pos;
      currentSprite := 0;
      currentTime := 0.0;
      alive := true;
      remains := None;
    }

    method Update(dt: real)
      requires Valid()
      modifies this
      ensures Valid()
      ensures old(currentTime) + dt >= FrameTime(kind) ==>
        currentTime == 0.0 && currentSprite == (old(currentSprite) + 1) % FrameCount(kind) &&
        alive == (old(alive) && currentSprite != FrameCount(kind) - 1)
      ensures old(currentTime) + dt < FrameTime(kind) ==>
        currentTime == old(currentTime) + dt && currentSprite == old(currentSprite) && alive == old(alive)
      ensures remains == if kind == KawarimiSheet && old(currentTime) + dt >= FrameTime(kind) &&
                            currentSprite == FrameCount(kind) - 1
                         then Some(Point(pos.x + 32, pos.y + 32)) else old(remains)
    {
      currentTime := currentTime + dt;
      if currentTime >= FrameTime(kind) {
        currentTime := 0.0;
        currentSprite := (currentSprite + 1) % FrameCount(kind);
        if currentSprite == FrameCount(kind) - 1 {
          if kind == KawarimiSheet {
            remains := Some(Point(pos.x + 32, pos.y + 32));
          }
          alive := false;
        }
      }
    }
  }

  // ---------------------------------------------------------- BloodParticle

  /** A drop of blood: it flies, stops, spreads to its full radius, then fades out. */
  class BloodParticle {
    var pos: Vec
    var velocity: Vec
    var radius: real
    var alpha: real
    const fadeSpeed: real
    var stopped: bool
    const stopTime: real
    var timeAlive: real
    const growSpeed: real
    const maxRadius: real
    var alive: bool

    /**
     * The phases in order: while moving the drop keeps its first radius and
     * full opacity, and it only fades once fully grown.
     */
    predicate Valid()
      reads this
    {
      (!stopped ==> radius == 3.0 && alpha == 255.0) &&
      (alpha < 255.0 ==> radius >= maxRadius) &&
      (alive ==> alpha > 0.0) &&
      growSpeed >= 0.5 && fadeSpeed >= 0.5
    }

    /** The four uniform draws of the constructor are parameters within their ranges. */
    constructor (pos: Vec, velocity: Vec, fadeSpeed: real, stopTime: real, growSpeed: real, maxRadius: real)
      requires 0.5 <= fadeSpeed <= 1.0 && 0.2 <= stopTime <= 0.5
      requires 0.5 <= growSpeed <= 1.0 && 3.0 <= maxRadius <= 5.0
      ensures Valid() && alive && !stopped && radius == 3.0 && alpha == 255.0 && timeAlive == 0.0
    {
      this.pos := pos;
      this.velocity := velocity;
      radius := 3.0;
      alpha := 255.0;
      this.fadeSpeed := fadeSpeed;
      stopped := false;
      this.stopTime := stopTime;
      timeAlive := 0.0;
      this.growSpeed := growSpeed;
      this.maxRadius := maxRadius;
      alive := true;
    }

    method Update(dt: real)
      requires Valid() && dt >= 0.0
      modifies this
      ensures Valid()
      ensures timeAlive == old(timeAlive) + dt
      ensures old(stopped) ==> stopped && pos == old(pos)
      ensures !old(stopped) ==> stopped == (timeAlive >= stopTime) && radius == old(radius) && alpha == old(alpha)
      ensures radius >= old(radius) && alpha <= old(alpha)
      ensures old(stopped) && old(radius) < maxRadius ==> radius == old(radius) + growSpeed * dt
      ensures alpha < old(alpha) ==> old(stopped) && radius >= maxRadius && alpha == old(alpha) - fadeSpeed
      ensures alive == (old(alive) && alpha > 0.0)
      ensures !old(stopped) ==>
        && velocity == Vec(old(velocity).x + 0.5 * dt, old(velocity).y + 0.5 * dt)
        && pos == Vec(old(pos).x + velocity.x * dt, old(pos).y + velocity.y * dt)
      ensures old(stopped) ==> velocity == old(velocity)
      ensures old(stopped) && old(radius) >= maxRadius ==> radius == old(radius)
      ensures old(stopped) && radius >= maxRadius ==> alpha == old(alpha) - fadeSpeed
      ensures old(stopped) && radius < maxRadius ==> alpha == old(alpha)
    {
      timeAlive := timeAlive + dt;
      if !stopped {
        velocity := Vec(velocity.x + 0.5 * dt, velocity.y + 0.5 * dt);
        pos := Vec(pos.x + velocity.x * dt, pos.y + velocity.y * dt);
        if timeAlive >= stopTime {
          stopped := true;
        }
      } else {
        if radius < maxRadius {
          radius := radius + growSpeed * dt;
        }
        if radius >= maxRadius {
          alpha := alpha - fadeSpeed;
          if alpha <= 0.0 {
            alive := false;
          }
        }
      }
    }
  }

  // ------------------------------------------------------------ InsectSwarm

  /** One insect of the swarm jutsu: fly to the target, circle it, fly back. */
  class InsectSwarm {
    var movingToTarget: bool
    var circlingTarget: bool
    var returningToUser: bool
    var startTime: int
    const lifespan: int
    const speed: int
    var alive: bool

    /** Exactly one of the three modes holds. */
    predicate Valid()
      reads this
    {
      (if movingToTarget then 1 else 0) + (if circlingTarget then 1 else 0) + (if returningToUser then 1 else 0) == 1
    }

    /** 0 moving to the target, 1 circling it, 2 returning to the user. */
    function Mode(): nat
      reads this
    {
      if movingToTarget then 0 else if circlingTarget then 1 else 2
    }

    constructor (now: int)
      ensures Valid() && Mode() == 0 && alive && startTime == now
      ensures lifespan == 6000 && speed == 200
    {
      movingToTarget := true;
      circlingTarget := false;
      returningToUser := false;
      startTime := now;
      lifespan := 6000;
      speed := 200;
      alive := true;
    }

    /**
     * One frame. The flight geometry is abstracted into four facts:
     * `reachedTarget` and `reachedUser` say the distance is at most speed × dt
     * before moving; `overlapsTarget` and `overlapsUser` are the rect
     * collisions after moving.
     */
    method Update(now: int, reachedTarget: bool, reachedUser: bool, overlapsTarget: bool, overlapsUser: bool)
      requires Valid()
      modifies this
      ensures Valid()
      ensures old(Mode()) <= Mode() <= old(Mode()) + 1
      ensures now - old(startTime) > lifespan ==> !alive && Mode() == old(Mode()) && startTime == old(startTime)
      ensures old(Mode()) == 0 && Mode() == 1 ==> startTime == now
      ensures old(Mode()) == 1 && Mode() == 2 ==> now - old(startTime) > 3000
      ensures Mode() == old(Mode()) ==> startTime == old(startTime)
      ensures old(alive) && !alive ==> now - old(startTime) > lifespan || (old(Mode()) == 2 && (reachedUser || overlapsUser)) || (old(Mode()) == 1 && overlapsUser && now - old(startTime) > 3000)
      ensures !old(alive) ==> !alive
      ensures now - old(startTime) <= lifespan ==>
        && (old(Mode()) == 0 ==> (Mode() == 1 <==> reachedTarget || overlapsTarget))
        && (old(Mode()) == 1 ==> (Mode() == 2 <==> now - old(startTime) > 3000))
        && (old(Mode()) == 1 && now - old(startTime) > 3000 && overlapsUser ==> !alive)
        && (old(Mode()) == 2 && (reachedUser || overlapsUser) ==> !alive)
    {
      if now - startTime > lifespan {
        alive := false;
        return;
      }
      if movingToTarget {
        if reachedTarget {
          movingToTarget := false;
          circlingTarget := true;
          startTime := now;
        }
      } else if circlingTarget {
        if now - startTime > 3000 {
          circlingTarget := false;
          returningToUser := true;
        }
      } else if returningToUser {
        if reachedUser {
          alive := false;
        }
      }
      if overlapsTarget && movingToTarget {
        movingToTarget := false;
        circlingTarget := true;
        startTime := now;
      } else if overlapsUser && returningToUser {
        alive := false;
      }
    }
  }

  // ------------------------------------------------------ ninjutsu effects

  /** The effect classes whose lifetime differs, by their duration. */
  datatype JutsuEffect = Plain | WaterDragon | EarthWall | Chidori

  function Duration(e: JutsuEffect): int
  {
    match e
    case Plain => 1000
    case WaterDragon => 2000
    case EarthWall => 5000
    case Chidori => 1500
  }

  /** The quadratic Bézier point at t of three control points. */
  function Bezier(t: real, p0: Vec, p1: Vec, p2: Vec): Vec
  {
    Vec((1.0 - t) * (1.0 - t) * p0.x + 2.0 * (1.0 - t) * t * p1.x + t * t * p2.x,
        (1.0 - t) * (1.0 - t) * p0.y + 2.0 * (1.0 - t) * t * p1.y + t * t * p2.y)
  }

  /** The curve starts at the first control point and ends at the last. */
  lemma BezierEndpoints(p0: Vec, p1: Vec, p2: Vec)
    ensures Bezier(0.0, p0, p1, p2) == p0
    ensures Bezier(1.0, p0, p1, p2) == p2
  {
  }

  /**
   * A time-boxed jutsu effect. An Earth Wall owns a collidable wall tile that
   * goes with it; a Water Dragon follows a Bézier curve from its start to its
   * target through a jittered midpoint.
   */
  class NinjutsuEffect {
    const kind: JutsuEffect
    const startTime: int
    const duration: int
    var alive: bool
    /** Earth Wall only: whether its collidable wall tile still exists. */
    var wallTileAlive: bool
    /** Water Dragon only: the curve parameter and the three control points. */
    var t: real
    const controlPoints: (Vec, Vec, Vec)
    var center: Vec

    predicate Valid()
      reads this
    {
      0.0 <= t <= 1.0 && (wallTileAlive ==> kind == EarthWall)
    }

    /** `jitter` is the midpoint's uniform offset, each coordinate in [−100, 100]. */
    constructor (kind: JutsuEffect, now: int, pos: Vec, target: Vec, jitter: Vec)
      requires -100.0 <= jitter.x <= 100.0 && -100.0 <= jitter.y <= 100.0
      ensures Valid() && alive && startTime == now && duration == Duration(kind) && this.kind == kind
      ensures wallTileAlive == (kind == EarthWall)
      ensures t == 0.0 && center == pos
      ensures controlPoints == (pos, Vec(pos.x + (target.x - pos.x) * 0.5 + jitter.x, pos.y + (target.y - pos.y) * 0.5 + jitter.y), target)
    {
      this.kind := kind;
      startTime := now;
      duration := Duration(kind);
      alive := true;
      wallTileAlive := kind == EarthWall;
      t := 0.0;
      controlPoints := (pos, Vec(pos.x + (target.x - pos.x) * 0.5 + jitter.x, pos.y + (target.y - pos.y) * 0.5 + jitter.y), target);
      center := pos;
    }

    /**
     * Every effect dies once more than its duration has passed; an Earth Wall
     * removes its wall tile at the same moment; a Water Dragon advances t by
     * dt / 1000, never past 1, and moves to the curve point.
     */
    method Update(now: int, dt: real)
      requires Valid() && dt >= 0.0
      modifies this
      ensures Valid()
      ensures alive == (old(alive) && now - startTime <= duration)
      ensures wallTileAlive == (old(wallTileAlive) && now - startTime <= duration)
      ensures kind == WaterDragon ==> old(t) <= t && t == (if old(t) + dt * 0.001 < 1.0 then old(t) + dt * 0.001 else 1.0)
      ensures kind == WaterDragon ==> center == Bezier(t, controlPoints.0, controlPoints.1, controlPoints.2)
      ensures kind != WaterDragon ==> t == old(t) && center == old(center)
    {
      if now - startTime > duration {
        alive := false;
      }
      if kind == WaterDragon {
        t := if t + dt * 0.001 < 1.0 then t + dt * 0.001 else 1.0;
        center := Bezier(t, controlPoints.0, controlPoints.1, controlPoints.2);
      }
      if kind == EarthWall && now - startTime > duration {
        wallTileAlive := false;
      }
    }
  }
}

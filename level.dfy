/**
 * The level (level.py): the `MapController` terrain grid, the melee exchange
 * between the player and an enemy, the projectile passes (player shots
 * against enemies, projectile against projectile with kunai ricochets), and
 * the small random rules used while building a level: rank rolls, wall
 * thickness, blood splashes and the move to the next level.
 */
module Levels {
  import opened Wrappers
  import opened Geometry
  import opened Settings
  import opened Projectiles
  import opened Characters
  import Players

  // ================================================================ the grid

  /** The keys of `MapController.elements`. */
  datatype Terrain = Tree | Rock | River | Bridge | Grass | Empty | Bonfire

  function TerrainName(t: Terrain): string
  {
    match t
    case Tree => "tree"
    case Rock => "rock"
    case River => "river"
    case Bridge => "bridge"
    case Grass => "grass"
    case Empty => "empty"
    case Bonfire => "bonfire"
  }

  /** `element_type in self.elements`, answering which key it is. */
  function TerrainNamed(name: string): (t: Option<Terrain>)
    ensures t.Some? ==> TerrainName(t.value) == name
  {
    if name == "tree" then Some(Tree)
    else if name == "rock" then Some(Rock)
    else if name == "river" then Some(River)
    else if name == "bridge" then Some(Bridge)
    else if name == "grass" then Some(Grass)
    else if name == "empty" then Some(Empty)
    else if name == "bonfire" then Some(Bonfire)
    else None
  }

  /** Every terrain is found under its own name: the lookup and the names agree. */
  lemma TerrainNameRoundTrip(t: Terrain)
    ensures TerrainNamed(TerrainName(t)) == Some(t)
  {
  }

  predicate InGrid(p: Point, width: int, height: int)
  {
    0 <= p.x < width && 0 <= p.y < height
  }

  /** `max(0, min(v, size - 1))`. */
  function Clamp(v: int, size: int): (c: int)
    requires size >= 1
    ensures 0 <= c < size
  {
    if v < 0 then 0 else if v > size - 1 then size - 1 else v
  }

  /**
   * Where a write at (x, y) lands and what it leaves: the cell itself with
   * the requested terrain when it is on the grid, otherwise the nearest edge
   * cell with grass.
   */
  function Placement(width: int, height: int, x: int, y: int, t: Terrain): (w: (Point, Terrain))
    requires width >= 1 && height >= 1
    ensures InGrid(w.0, width, height)
    ensures InGrid(Point(x, y), width, height) ==> w == (Point(x, y), t)
    ensures !InGrid(Point(x, y), width, height) ==>
      w.1 == Grass && (w.0.x == 0 || w.0.x == width - 1 || w.0.y == 0 || w.0.y == height - 1)
  {
    if InGrid(Point(x, y), width, height) then (Point(x, y), t)
    else (Point(Clamp(x, width), Clamp(y, height)), Grass)
  }

  /** The written cells of `element_grid`; a cell never written holds None. */
  type Cells = map<Point, Terrain>

  function Get(c: Cells, p: Point): Option<Terrain>
  {
    if p in c then Some(c[p]) else None
  }

  predicate WithinGrid(c: Cells, width: int, height: int)
  {
    forall p :: p in c ==> InGrid(p, width, height)
  }

  /** One write of `add_element`. */
  function Paint(c: Cells, width: int, height: int, x: int, y: int, t: Terrain): (r: Cells)
    requires width >= 1 && height >= 1
    ensures WithinGrid(c, width, height) ==> WithinGrid(r, width, height)
  {
    var w := Placement(width, height, x, y, t);
    c[w.0 := w.1]
  }

  /** The inner loop of `add_rect`: column i, rows y .. y + h - 1 in order. */
  function PaintColumn(c: Cells, width: int, height: int, i: int, y: int, h: int, t: Terrain): (r: Cells)
    requires width >= 1 && height >= 1
    ensures WithinGrid(c, width, height) ==> WithinGrid(r, width, height)
    decreases h
  {
    if h <= 0 then c
    else Paint(PaintColumn(c, width, height, i, y, h - 1, t), width, height, i, y + h - 1, t)
  }

  /** `add_rect`: columns x .. x + w - 1 in order, each painted top to bottom. */
  function PaintRect(c: Cells, width: int, height: int, x: int, y: int, w: int, h: int, t: Terrain): (r: Cells)
    requires width >= 1 && height >= 1
    ensures WithinGrid(c, width, height) ==> WithinGrid(r, width, height)
    decreases w
  {
    if w <= 0 then c
    else PaintColumn(PaintRect(c, width, height, x, y, w - 1, h, t), width, height, x + w - 1, y, h, t)
  }

  predicate InRect(p: Point, x: int, y: int, w: int, h: int)
  {
    x <= p.x < x + w && y <= p.y < y + h
  }

  /** A cell off the map's border: no clamped write can reach it. */
  predicate Interior(p: Point, width: int, height: int)
  {
    0 < p.x < width - 1 && 0 < p.y < height - 1
  }

  lemma {:induction false} ColumnCell(c: Cells, width: int, height: int, i: int, y: int, h: int, t: Terrain, p: Point)
    requires width >= 1 && height >= 1
    requires Interior(p, width, height) || (0 <= i < width && 0 <= y && y + h <= height)
    ensures InRect(p, i, y, 1, h) ==> Get(PaintColumn(c, width, height, i, y, h, t), p) == Some(t)
    ensures !InRect(p, i, y, 1, h) ==> Get(PaintColumn(c, width, height, i, y, h, t), p) == Get(c, p)
    decreases h
  {
    if h > 0 {
      var prev := PaintColumn(c, width, height, i, y, h - 1, t);
      ColumnCell(c, width, height, i, y, h - 1, t, p);
      var q := Point(i, y + h - 1);
      var w := Placement(width, height, i, y + h - 1, t);
      assert PaintColumn(c, width, height, i, y, h, t) == prev[w.0 := w.1];
      if p == q {
        assert w == (q, t);
      } else {
        assert w.0 != p;
      }
    }
  }

  /**
   * What `add_rect` leaves in a cell that only its own coordinates can
   * reach, that is any cell when the rectangle lies on the map and a cell
   * off the border otherwise: the terrain inside the rectangle, the old
   * content outside it.
   */
  lemma {:induction false} RectCell(c: Cells, width: int, height: int, x: int, y: int, w: int, h: int, t: Terrain, p: Point)
    requires width >= 1 && height >= 1
    requires Interior(p, width, height) || (0 <= x && x + w <= width && 0 <= y && y + h <= height)
    ensures InRect(p, x, y, w, h) ==> Get(PaintRect(c, width, height, x, y, w, h, t), p) == Some(t)
    ensures !InRect(p, x, y, w, h) ==> Get(PaintRect(c, width, height, x, y, w, h, t), p) == Get(c, p)
    decreases w
  {
    if w > 0 {
      RectCell(c, width, height, x, y, w - 1, h, t, p);
      ColumnCell(PaintRect(c, width, height, x, y, w - 1, h, t), width, height, x + w - 1, y, h, t, p);
    }
  }

  /**
   * A rectangle that spills past the border paints the border grass: on a
   * 3 by 3 map, rock over columns 1 to 3 of row 0 leaves rock at (1, 0) but
   * grass at (2, 0), where the off-map column 3 is clamped after (2, 0) was
   * written.
   */
  lemma SpillPaintsBorderGrass()
    ensures Get(PaintRect(map[], 3, 3, 1, 0, 3, 1, Rock), Point(1, 0)) == Some(Rock)
    ensures Get(PaintRect(map[], 3, 3, 1, 0, 3, 1, Rock), Point(2, 0)) == Some(Grass)
  {
    var c1 := PaintRect(map[], 3, 3, 1, 0, 1, 1, Rock);
    assert c1 == map[Point(1, 0) := Rock];
    var c2 := PaintRect(map[], 3, 3, 1, 0, 2, 1, Rock);
    assert c2 == c1[Point(2, 0) := Rock];
    assert PaintRect(map[], 3, 3, 1, 0, 3, 1, Rock) == c2[Point(2, 0) := Grass];
  }

  /** Which cells a scan of `MapController` collects. */
  datatype Query = EmptyAreas | OfType(t: Terrain)

  /** Row-major order: by row, then by column. */
  predicate RowMajorBefore(a: Point, b: Point)
  {
    a.y < b.y || (a.y == b.y && a.x < b.x)
  }

  predicate Near(p: Point, x: int, y: int)
  {
    x - 1 <= p.x <= x + 1 && y - 1 <= p.y <= y + 1
  }

  class MapController {
    const width: int
    const height: int
    var cells: Cells

    predicate Valid()
      reads this
    {
      width >= 1 && height >= 1 && WithinGrid(cells, width, height)
    }

    constructor (width: int, height: int)
      requires width >= 1 && height >= 1
      ensures Valid() && this.width == width && this.height == height
      ensures forall p :: ElementAt(p) == None
    {
      this.width := width;
      this.height := height;
      cells := map[];
    }

    /** `get_element_at`: None off the grid and on a cell never written. */
    function ElementAt(p: Point): (r: Option<Terrain>)
      reads this
      ensures !InGrid(p, width, height) && Valid() ==> r.None?
      ensures r.Some? ==> p in cells && cells[p] == r.value
    {
      if InGrid(p, width, height) then Get(cells, p) else None
    }

    /** `is_area_empty`: on the grid, with every cell of the 3 by 3 block that is on the grid empty. */
    ghost predicate AreaEmpty(x: int, y: int)
      reads this
    {
      InGrid(Point(x, y), width, height) &&
      forall p :: Near(p, x, y) && InGrid(p, width, height) ==> ElementAt(p) == Some(Empty)
    }

    ghost predicate Matches(q: Query, p: Point)
      reads this
    {
      match q
      case EmptyAreas => AreaEmpty(p.x, p.y)
      case OfType(t) => ElementAt(p) == Some(t)
    }

    /**
     * `add_element`: an unknown terrain name raises ValueError and writes
     * nothing; otherwise the write lands as `Placement` says, so a cell on
     * the grid reads back the terrain, and an off-grid write turns the
     * nearest edge cell to grass.
     */
    method AddElement(x: int, y: int, name: string) returns (error: Option<PyError>)
      requires Valid()
      modifies this`cells
      ensures Valid()
      ensures TerrainNamed(name).None? ==> error == Some(ValueError("Unknown element: " + name)) && cells == old(cells)
      ensures TerrainNamed(name).Some? ==> error.None? && cells == Paint(old(cells), width, height, x, y, TerrainNamed(name).value)
      ensures TerrainNamed(name).Some? && InGrid(Point(x, y), width, height) ==> ElementAt(Point(x, y)) == TerrainNamed(name)
      ensures TerrainNamed(name).Some? && !InGrid(Point(x, y), width, height) ==>
        ElementAt(Point(Clamp(x, width), Clamp(y, height))) == Some(Grass)
      ensures forall p :: p != Placement(width, height, x, y, Grass).0 && p != Point(x, y) ==> ElementAt(p) == old(ElementAt(p))
    {
      var t := TerrainNamed(name);
      if t.None? {
        error := Some(ValueError("Unknown element: " + name));
        return;
      }
      error := None;
      if 0 <= x < width && 0 <= y < height {
        cells := cells[Point(x, y) := t.value];
      } else {
        var edgeX := Clamp(x, width);
        var edgeY := Clamp(y, height);
        cells := cells[Point(edgeX, edgeY) := Grass];
      }
    }

    /**
     * `add_rect`: an unknown terrain name raises ValueError and writes
     * nothing; otherwise every point of the rectangle is written in column
     * order, off-grid points turning their nearest edge cell to grass (see
     * `RectCell` for what each cell ends up holding).
     */
    method AddRect(x: int, y: int, w: int, h: int, name: string) returns (error: Option<PyError>)
      requires Valid()
      modifies this`cells
      ensures Valid()
      ensures TerrainNamed(name).None? ==> error == Some(ValueError("Unknown element: " + name)) && cells == old(cells)
      ensures TerrainNamed(name).Some? ==>
        error.None? && cells == PaintRect(old(cells), width, height, x, y, w, h, TerrainNamed(name).value)
    {
      var found := TerrainNamed(name);
      if found.None? {
        error := Some(ValueError("Unknown element: " + name));
        return;
      }
      error := None;
      var t := found.value;
      var i := x;
      while i < x + w
        invariant (w <= 0 && i == x) || (x <= i <= x + w)
        invariant cells == PaintRect(old(cells), width, height, x, y, i - x, h, t)
      {
        ghost var done := cells;
        var j := y;
        while j < y + h
          invariant (h <= 0 && j == y) || (y <= j <= y + h)
          invariant cells == PaintColumn(done, width, height, i, y, j - y, t)
        {
          ghost var prev := cells;
          if 0 <= i < width && 0 <= j < height {
            cells := cells[Point(i, j) := t];
          } else {
            var edgeI := Clamp(i, width);
            var edgeJ := Clamp(j, height);
            cells := cells[Point(edgeI, edgeJ) := Grass];
          }
          assert cells == Paint(prev, width, height, i, j, t);
          j := j + 1;
        }
        i := i + 1;
      }
    }

    /** `is_area_empty`, scanning the 3 by 3 block row by row and stopping at the first non-empty cell. */
    method IsAreaEmpty(x: int, y: int) returns (empty: bool)
      ensures empty == AreaEmpty(x, y)
    {
      if !(0 <= x < width && 0 <= y < height) {
        return false;
      }
      var dy := -1;
      while dy <= 1
        invariant -1 <= dy <= 2
        invariant forall p :: Near(p, x, y) && p.y < y + dy && InGrid(p, width, height) ==> ElementAt(p) == Some(Empty)
      {
        var dx := -1;
        while dx <= 1
          invariant -1 <= dx <= 2
          invariant forall p :: Near(p, x, y) && (p.y < y + dy || (p.y == y + dy && p.x < x + dx)) && InGrid(p, width, height) ==>
            ElementAt(p) == Some(Empty)
        {
          var q := Point(x + dx, y + dy);
          if 0 <= q.x < width && 0 <= q.y < height && Get(cells, q) != Some(Empty) {
            assert Near(q, x, y) && ElementAt(q) != Some(Empty);
            return false;
          }
          dx := dx + 1;
        }
        dy := dy + 1;
      }
      return true;
    }

    /** The row-major scan shared by `find_empty_areas` and `find_elements_of_type`. */
    method Scan(q: Query) returns (found: seq<Point>)
      ensures forall k :: 0 <= k < |found| ==> InGrid(found[k], width, height) && Matches(q, found[k])
      ensures forall p :: InGrid(p, width, height) && Matches(q, p) ==> p in found
      ensures forall k, l :: 0 <= k < l < |found| ==> RowMajorBefore(found[k], found[l])
    {
      found := [];
      var y := 0;
      while y < height
        invariant 0 <= y <= height || (height <= 0 && y == 0)
        invariant forall k :: 0 <= k < |found| ==> InGrid(found[k], width, height) && Matches(q, found[k]) && found[k].y < y
        invariant forall p :: InGrid(p, width, height) && p.y < y && Matches(q, p) ==> p in found
        invariant forall k, l :: 0 <= k < l < |found| ==> RowMajorBefore(found[k], found[l])
      {
        var x := 0;
        while x < width
          invariant 0 <= x <= width || (width <= 0 && x == 0)
          invariant forall k :: 0 <= k < |found| ==>
            InGrid(found[k], width, height) && Matches(q, found[k]) && RowMajorBefore(found[k], Point(x, y))
          invariant forall p :: InGrid(p, width, height) && RowMajorBefore(p, Point(x, y)) && Matches(q, p) ==> p in found
          invariant forall k, l :: 0 <= k < l < |found| ==> RowMajorBefore(found[k], found[l])
        {
          var hit: bool;
          if q.EmptyAreas? {
            hit := IsAreaEmpty(x, y);
          } else {
            hit := Get(cells, Point(x, y)) == Some(q.t);
          }
          if hit {
            found := found + [Point(x, y)];
          }
          x := x + 1;
        }
        y := y + 1;
      }
    }

    /** `find_empty_areas`: every cell whose block is empty, each once, in row-major order. */
    method FindEmptyAreas() returns (found: seq<Point>)
      ensures forall k :: 0 <= k < |found| ==> InGrid(found[k], width, height) && AreaEmpty(found[k].x, found[k].y)
      ensures forall p :: InGrid(p, width, height) && AreaEmpty(p.x, p.y) ==> p in found
      ensures forall k, l :: 0 <= k < l < |found| ==> RowMajorBefore(found[k], found[l])
    {
      found := Scan(EmptyAreas);
      forall p | InGrid(p, width, height) && AreaEmpty(p.x, p.y)
        ensures p in found
      {
        assert Matches(EmptyAreas, p);
      }
    }

    /** `find_elements_of_type`: every cell holding the terrain, each once, in row-major order. */
    method FindElementsOfType(t: Terrain) returns (found: seq<Point>)
      ensures forall k :: 0 <= k < |found| ==> InGrid(found[k], width, height) && ElementAt(found[k]) == Some(t)
      ensures forall p :: InGrid(p, width, height) && ElementAt(p) == Some(t) ==> p in found
      ensures forall k, l :: 0 <= k < l < |found| ==> RowMajorBefore(found[k], found[l])
    {
      found := Scan(OfType(t));
      forall p | InGrid(p, width, height) && ElementAt(p) == Some(t)
        ensures p in found
      {
        assert Matches(OfType(t), p);
      }
    }
  }

  // ============================================================ melee combat

  /** The two skills `melee_combat` reads from each side. */
  datatype Fighter = Fighter(melee: int, defense: int)

  /** `melee_combat`'s pair: the damage the player takes, then the enemy's. */
  datatype Exchange = Exchange(toPlayer: int, toEnemy: int)

  /** `melee_cooldown`, milliseconds, shared by both timestamps. */
  const MeleeGate: int := 2000

  function Max(a: int, b: int): (m: int)
    ensures m >= a && m >= b && (m == a || m == b)
  {
    if a >= b then a else b
  }

  /**
   * One exchange after the cooldown: the first draw decides the damage the
   * player takes, with odds `p.melee / (p.melee + e.defense)` and amount
   * `max(5, p.melee - e.melee - p.defense)`; the second the enemy's, with
   * odds `e.melee / (e.melee + p.defense)` and amount
   * `max(5, p.melee - e.defense)`. A zero denominator raises
   * ZeroDivisionError before any draw.
   */
  function MeleeOutcome(p: Fighter, e: Fighter, playerDraw: real, enemyDraw: real): (r: Result<Exchange>)
    ensures r.Err? <==> p.melee + e.defense == 0 || e.melee + p.defense == 0
    ensures r.Ok? ==> (r.value.toPlayer != 0 <==>
      playerDraw < p.melee as real / (p.melee + e.defense) as real)
    ensures r.Ok? ==> (r.value.toEnemy != 0 <==>
      enemyDraw < e.melee as real / (e.melee + p.defense) as real)
    ensures r.Ok? && r.value.toPlayer != 0 ==> r.value.toPlayer == Max(5, p.melee - e.melee - p.defense)
    ensures r.Ok? && r.value.toEnemy != 0 ==> r.value.toEnemy == Max(5, p.melee - e.defense)
  {
    if p.melee + e.defense == 0 || e.melee + p.defense == 0 then Err(ZeroDivisionError)
    else
      var playerChance := p.melee as real / (p.melee + e.defense) as real;
      var enemyChance := e.melee as real / (e.melee + p.defense) as real;
      Ok(Exchange(if playerDraw < playerChance then Max(5, (p.melee - e.melee) - p.defense) else 0,
                  if enemyDraw < enemyChance then Max(5, p.melee - e.defense) else 0))
  }

  /**
   * With non-negative skills and draws in [0, 1): no melee skill means the
   * side never lands, and no defence against a positive skill means it
   * always lands.
   */
  lemma MeleeOdds(p: Fighter, e: Fighter, playerDraw: real, enemyDraw: real)
    requires p.melee >= 0 && p.defense >= 0 && e.melee >= 0 && e.defense >= 0
    requires 0.0 <= playerDraw < 1.0 && 0.0 <= enemyDraw < 1.0
    requires MeleeOutcome(p, e, playerDraw, enemyDraw).Ok?
    ensures p.melee == 0 ==> MeleeOutcome(p, e, playerDraw, enemyDraw).value.toPlayer == 0
    ensures p.melee > 0 && e.defense == 0 ==> MeleeOutcome(p, e, playerDraw, enemyDraw).value.toPlayer >= 5
    ensures e.melee == 0 ==> MeleeOutcome(p, e, playerDraw, enemyDraw).value.toEnemy == 0
    ensures e.melee > 0 && p.defense == 0 ==> MeleeOutcome(p, e, playerDraw, enemyDraw).value.toEnemy >= 5
  {
    if p.melee > 0 && e.defense == 0 {
      WholeChance(p.melee, e.defense);
    }
    if e.melee > 0 && p.defense == 0 {
      WholeChance(e.melee, p.defense);
    }
  }

  lemma WholeChance(skill: int, guard: int)
    requires skill > 0 && guard == 0
    ensures skill as real / (skill + guard) as real == 1.0
  {
    var a := skill as real;
    assert (skill + guard) as real == a;
    assert a / a == 1.0;
  }

  /** One enemy the player's mask overlaps, with the distance between the centres. */
  datatype Contact = Contact(enemy: nat, centre: Point, fighter: Fighter, distance: real)

  predicate Touching(contacts: seq<Contact>, enemy: nat)
  {
    exists k :: 0 <= k < |contacts| && contacts[k].enemy == enemy
  }

  /** The draws one contact may use: the two hit rolls and the Kawarimi roll and direction. */
  datatype Roll = Roll(playerDraw: real, enemyDraw: real, kawarimiDraw: real, pick: nat)

  /**
   * What one landed exchange does to the player and which event it raises:
   * the player's share, when the centres differ, costs that much hp, or
   * with a Kawarimi draw below 0.22 costs nothing and moves the player 128
   * px along the drawn cardinal; the enemy's share is an `EnemyHit` when
   * the player's centre, after any such jump, differs from the enemy's.
   */
  predicate ExchangeOutcome(x: Exchange, c: Contact, roll: Roll, hp0: real, hp: real, rect0: Rect, rect: Rect, events: seq<Event>)
    requires roll.pick < |Cardinals|
  {
    var hurt := x.toPlayer > 0 && c.distance > 0.0;
    && (hurt && roll.kawarimiDraw >= 0.22 ==> hp == hp0 - x.toPlayer as real && rect == rect0)
    && (hurt && roll.kawarimiDraw < 0.22 ==>
          hp == hp0 && rect == rect0.Move(Players.KawarimiDistance * Cardinals[roll.pick].0, Players.KawarimiDistance * Cardinals[roll.pick].1))
    && (!hurt ==> hp == hp0 && rect == rect0)
    && events == (if x.toEnemy > 0 && rect.Center() != c.centre then [EnemyHit(c.enemy, x.toEnemy)] else [])
  }

  /**
   * The player's guard after one landed exchange: when the player's share
   * is hurt (a positive share and centres apart), `take_damage` runs with
   * the unit vector from the enemy's centre to the player's; otherwise the
   * guard is as it was.
   */
  function GuardAfter(x: Exchange, c: Contact, rect0: Rect, g: Players.Guard, hp: real, now: int): (g': Players.Guard)
    ensures x.toPlayer <= 0 || c.distance <= 0.0 ==> g' == g
    ensures x.toPlayer > 0 && c.distance > 0.0 && hp > 0.0 ==>
      g'.alive == g.alive && g'.invincible && g'.knockedBack && g'.invincibleStart == now && g'.knockbackStart == now &&
      g'.knockbackVelocity == Vec((rect0.Center().x - c.centre.x) as real / c.distance * 200.0,
                                  (rect0.Center().y - c.centre.y) as real / c.distance * 200.0)
    ensures x.toPlayer > 0 && c.distance > 0.0 && hp <= 0.0 ==> g' == g.(alive := false)
  {
    if x.toPlayer > 0 && c.distance > 0.0 then
      var knock := Vec((rect0.Center().x - c.centre.x) as real / c.distance, (rect0.Center().y - c.centre.y) as real / c.distance);
      Players.AfterHit(g, hp, knock, now)
    else g
  }

  // ========================================================= projectile pass

  /** A `Projectile` as the level's collision passes see it. */
  datatype Missile = Missile(kind: Weapon, side: Side, rect: Rect, damage: int, fromCollision: bool)

  /** The projectiles `check_projectile_collisions` lets damage enemies. */
  predicate Strikes(m: Missile)
  {
    m.side == PlayerSide && m.kind != Fireball
  }

  /**
   * The enemy damage of `check_projectile_collisions`: each striking
   * projectile, in group order, hits every enemy its mask meets
   * (`enemyHits[k]`, in the enemy group's order) with its own damage.
   */
  function DamageEvents(ps: seq<Missile>, enemyHits: seq<seq<nat>>): seq<Event>
    requires |enemyHits| == |ps|
    decreases |ps|
  {
    if |ps| == 0 then []
    else
      var n := |ps| - 1;
      DamageEvents(ps[..n], enemyHits[..n]) + (if Strikes(ps[n]) then HitsFor(enemyHits[n], ps[n].damage) else [])
  }

  /** Some striking projectile met enemy `e` and deals `amount`. */
  predicate Dealt(ps: seq<Missile>, enemyHits: seq<seq<nat>>, e: nat, amount: int)
    requires |enemyHits| == |ps|
  {
    exists k :: 0 <= k < |ps| && Strikes(ps[k]) && e in enemyHits[k] && amount == ps[k].damage
  }

  /**
   * The damage pass in both directions: every event is a striking
   * projectile's hit on an enemy it met, and every enemy a striking
   * projectile met takes that projectile's damage.
   */
  lemma {:induction false} DamageEventsMeaning(ps: seq<Missile>, enemyHits: seq<seq<nat>>)
    requires |enemyHits| == |ps|
    ensures forall ev :: ev in DamageEvents(ps, enemyHits) ==> ev.EnemyHit? && Dealt(ps, enemyHits, ev.enemy, ev.amount)
    ensures forall k, e :: 0 <= k < |ps| && Strikes(ps[k]) && e in enemyHits[k] ==>
      EnemyHit(e, ps[k].damage) in DamageEvents(ps, enemyHits)
    decreases |ps|
  {
    if |ps| > 0 {
      var n := |ps| - 1;
      var before := DamageEvents(ps[..n], enemyHits[..n]);
      var mine := if Strikes(ps[n]) then HitsFor(enemyHits[n], ps[n].damage) else [];
      DamageEventsMeaning(ps[..n], enemyHits[..n]);
      var all := DamageEvents(ps, enemyHits);
      assert all == before + mine;
      forall ev | ev in all
        ensures ev.EnemyHit? && Dealt(ps, enemyHits, ev.enemy, ev.amount)
      {
        if ev in before {
          assert Dealt(ps[..n], enemyHits[..n], ev.enemy, ev.amount);
          var k :| 0 <= k < n && Strikes(ps[..n][k]) && ev.enemy in enemyHits[..n][k] && ev.amount == ps[..n][k].damage;
          assert ps[..n][k] == ps[k] && enemyHits[..n][k] == enemyHits[k];
        } else {
          assert ev in mine;
          var i :| 0 <= i < |mine| && mine[i] == ev;
          assert ev == EnemyHit(enemyHits[n][i], ps[n].damage);
          assert enemyHits[n][i] in enemyHits[n];
        }
      }
      forall k, e | 0 <= k < |ps| && Strikes(ps[k]) && e in enemyHits[k]
        ensures EnemyHit(e, ps[k].damage) in all
      {
        if k < n {
          assert ps[..n][k] == ps[k] && enemyHits[..n][k] == enemyHits[k];
        } else {
          var i :| 0 <= i < |enemyHits[n]| && enemyHits[n][i] == e;
          assert mine[i] == EnemyHit(e, ps[n].damage);
        }
      }
    }
  }

  /** A projectile killed by the damage pass: a striking one that met an enemy. */
  function DamageKills(ps: seq<Missile>, enemyHits: seq<seq<nat>>): (dead: seq<bool>)
    requires |enemyHits| == |ps|
    ensures |dead| == |ps|
    ensures forall k :: 0 <= k < |ps| ==> (dead[k] <==> Strikes(ps[k]) && |enemyHits[k]| > 0)
  {
    seq(|ps|, k requires 0 <= k < |ps| => Strikes(ps[k]) && |enemyHits[k]| > 0)
  }

  /** How many entries a kill list marks dead. */
  function Deaths(dead: seq<bool>): (n: nat)
    ensures n <= |dead|
  {
    if |dead| == 0 then 0 else (if dead[0] then 1 else 0) + Deaths(dead[1..])
  }

  /** The group after kills: the survivors, in their order. */
  function Keep(ps: seq<Missile>, dead: seq<bool>): (rest: seq<Missile>)
    requires |dead| == |ps|
    ensures |rest| == |ps| - Deaths(dead)
    ensures forall m :: m in rest ==> m in ps
    ensures forall k :: 0 <= k < |ps| && !dead[k] ==> ps[k] in rest
    ensures (forall k :: 0 <= k < |ps| ==> !dead[k]) ==> rest == ps
    decreases |ps|
  {
    if |ps| == 0 then []
    else (if dead[0] then [] else [ps[0]]) + Keep(ps[1..], dead[1..])
  }

  // ================================================ projectile vs projectile

  /** What a touching pair does. */
  datatype Verdict = Ignore | DestroyBoth | DestroyFirst | DestroySecond

  /**
   * The pair rule as evidently intended: a pair of two ricochets is
   * ignored; otherwise every destructible member of the pair is destroyed.
   */
  function Arbitrate(a: Missile, b: Missile): (v: Verdict)
    ensures a.fromCollision && b.fromCollision ==> v == Ignore
    ensures !(a.fromCollision && b.fromCollision) ==>
      && (!Indestructible(a.kind) && !Indestructible(b.kind) <==> v == DestroyBoth)
      && (!Indestructible(a.kind) && Indestructible(b.kind) <==> v == DestroyFirst)
      && (Indestructible(a.kind) && !Indestructible(b.kind) <==> v == DestroySecond)
      && (Indestructible(a.kind) && Indestructible(b.kind) <==> v == Ignore)
  {
    if a.fromCollision && b.fromCollision then Ignore
    else Settle(a, b)
  }

  /** The indestructibility branches shared by both versions of the rule. */
  function Settle(a: Missile, b: Missile): Verdict
  {
    if !Indestructible(a.kind) && !Indestructible(b.kind) then DestroyBoth
    else if !Indestructible(a.kind) then DestroyFirst
    else if !Indestructible(b.kind) then DestroySecond
    else Ignore
  }

  /**
   * The pair rule as written: the first projectile's `from_collision` is
   * never read, and the test asks twice whether the second is a ricochet.
   */
  function ArbitrateAsWritten(a: Missile, b: Missile): (v: Verdict)
    ensures b.fromCollision ==> v == Ignore
    ensures !b.fromCollision ==> v == Arbitrate(a, b)
  {
    if b.fromCollision && b.fromCollision then Ignore
    else Settle(a, b)
  }

  /**
   * The two rules differ exactly on a fresh projectile followed by a
   * ricochet: a thrown kunai meeting a ricochet kunai later in the group
   * passes through it as written, where both should break.
   */
  lemma AsWrittenSkipsLaterRicochet(a: Missile, b: Missile)
    ensures ArbitrateAsWritten(a, b) != Arbitrate(a, b) <==>
      !a.fromCollision && b.fromCollision && Arbitrate(a, b) != Ignore
    ensures a.kind == Kunai && b.kind == Kunai && !a.fromCollision && b.fromCollision ==>
      ArbitrateAsWritten(a, b) == Ignore && Arbitrate(a, b) == DestroyBoth
  {
  }

  /** The as-written rule depends on the order of the pair; the intended one does not. */
  lemma AsWrittenIsOrderDependent(a: Missile, b: Missile)
    requires a.kind == Kunai && b.kind == Kunai && !a.fromCollision && b.fromCollision
    ensures ArbitrateAsWritten(a, b) == Ignore && ArbitrateAsWritten(b, a) == DestroyBoth
    ensures Arbitrate(a, b) == Arbitrate(b, a)
  {
  }

  /**
   * `handle_projectile_destruction`'s spawn: a kunai that was not itself a
   * ricochet leaves a new kunai of its side at its centre, marked as a
   * ricochet; anything else leaves nothing.
   */
  function Ricochet(m: Missile): (r: Option<Missile>)
    ensures r.Some? <==> m.kind == Kunai && !m.fromCollision
    ensures r.Some? ==>
      r.value.kind == Kunai && r.value.fromCollision && r.value.side == m.side &&
      r.value.rect.Center() == m.rect.Center() && r.value.damage == WeaponData(Kunai).damage
  {
    if m.kind == Kunai && !m.fromCollision then Some(Missile(Kunai, m.side, m.rect, WeaponData(Kunai).damage, true))
    else None
  }

  /** A ricochet never ricochets again, so the chain stops after one step. */
  lemma RicochetsDoNotChain(m: Missile)
    requires Ricochet(m).Some?
    ensures Ricochet(Ricochet(m).value).None?
  {
  }

  /** The pass's running outcome: which snapshot entries were killed, and the kunai spawned so far. */
  datatype Wreck = Wreck(dead: seq<bool>, spawned: seq<Missile>)

  /** `handle_projectile_destruction(ps[k])`: always a kill, perhaps a spawn. */
  function Destroy(ps: seq<Missile>, k: nat, st: Wreck): (r: Wreck)
    requires k < |ps| && |st.dead| == |ps|
    ensures |r.dead| == |ps| && r.dead[k]
    ensures forall l :: 0 <= l < |ps| && l != k ==> r.dead[l] == st.dead[l]
  {
    var more := Ricochet(ps[k]);
    Wreck(st.dead[k := true], st.spawned + (if more.Some? then [more.value] else []))
  }

  /**
   * Which pair rule a pass runs: the program's (`ArbitrateAsWritten`, what
   * `check_projectile_projectile_collisions` does) or the intended one.
   */
  datatype Rule = AsWritten | Intended

  function Judge(rule: Rule, a: Missile, b: Missile): (v: Verdict)
    ensures rule == AsWritten ==> v == ArbitrateAsWritten(a, b)
    ensures rule == Intended ==> v == Arbitrate(a, b)
  {
    match rule
    case AsWritten => ArbitrateAsWritten(a, b)
    case Intended => Arbitrate(a, b)
  }

  predicate KillsFirst(v: Verdict)
  {
    v == DestroyBoth || v == DestroyFirst
  }

  predicate KillsSecond(v: Verdict)
  {
    v == DestroyBoth || v == DestroySecond
  }

  /** Pair (a, b) of the snapshot touches, and its verdict kills projectile `k`. */
  predicate PairKills(rule: Rule, ps: seq<Missile>, a: nat, b: nat, k: nat)
  {
    && a < b < |ps| && Overlaps(ps[a].rect, ps[b].rect)
    && ((k == a && KillsFirst(Judge(rule, ps[a], ps[b]))) || (k == b && KillsSecond(Judge(rule, ps[a], ps[b]))))
  }

  /** Pair (a, b) is still ahead of a scan standing at pair (i, j). */
  predicate Pending(i: nat, j: nat, a: nat, b: nat)
  {
    a > i || (a == i && b >= j)
  }

  /** One pair (i, j) of the snapshot, when their rects collide. */
  function Resolve(rule: Rule, ps: seq<Missile>, i: nat, j: nat, st: Wreck): (r: Wreck)
    requires i < j < |ps| && |st.dead| == |ps|
    ensures |r.dead| == |ps|
    ensures forall k :: 0 <= k < |ps| ==> (r.dead[k] <==> st.dead[k] || PairKills(rule, ps, i, j, k))
  {
    if !Overlaps(ps[i].rect, ps[j].rect) then st
    else match Judge(rule, ps[i], ps[j])
      case Ignore => st
      case DestroyBoth => Destroy(ps, j, Destroy(ps, i, st))
      case DestroyFirst => Destroy(ps, i, st)
      case DestroySecond => Destroy(ps, j, st)
  }

  predicate Ricochets(ms: seq<Missile>)
  {
    forall n :: 0 <= n < |ms| ==> ms[n].kind == Kunai && ms[n].fromCollision
  }

  /**
   * `check_projectile_projectile_collisions` from pair (i, j) on: every
   * later pair of the snapshot taken at the start, in order. Projectiles
   * killed earlier in the pass stay in the snapshot and keep colliding.
   */
  function PairScan(rule: Rule, ps: seq<Missile>, i: nat, j: nat, st: Wreck): (r: Wreck)
    requires |st.dead| == |ps| && i < j
    ensures |r.dead| == |ps|
    decreases |ps| - i, |ps| - j
  {
    if i >= |ps| then st
    else if j >= |ps| then PairScan(rule, ps, i + 1, i + 2, st)
    else PairScan(rule, ps, i, j + 1, Resolve(rule, ps, i, j, st))
  }

  /**
   * Exactly who the rest of a pair pass kills: a projectile is dead at the
   * end iff it was dead already or some touching pair still ahead of the
   * scan has a verdict that kills it.
   */
  lemma {:induction false} PairScanKills(rule: Rule, ps: seq<Missile>, i: nat, j: nat, st: Wreck, k: nat)
    requires |st.dead| == |ps| && i < j && k < |ps|
    ensures PairScan(rule, ps, i, j, st).dead[k] <==>
      st.dead[k] || exists a: nat, b: nat :: Pending(i, j, a, b) && PairKills(rule, ps, a, b, k)
    decreases |ps| - i, |ps| - j
  {
    if i >= |ps| {
      forall a: nat, b: nat | Pending(i, j, a, b)
        ensures !PairKills(rule, ps, a, b, k)
      {
      }
    } else if j >= |ps| {
      PairScanKills(rule, ps, i + 1, i + 2, st, k);
      forall a: nat, b: nat | PairKills(rule, ps, a, b, k)
        ensures Pending(i, j, a, b) <==> Pending(i + 1, i + 2, a, b)
      {
      }
    } else {
      var next := Resolve(rule, ps, i, j, st);
      PairScanKills(rule, ps, i, j + 1, next, k);
      forall a: nat, b: nat | PairKills(rule, ps, a, b, k)
        ensures Pending(i, j, a, b) <==> (a == i && b == j) || Pending(i, j + 1, a, b)
      {
      }
      if PairKills(rule, ps, i, j, k) {
        assert Pending(i, j, i, j);
      }
    }
  }

  /**
   * What the rest of a pair pass can do: kill only destructible
   * projectiles, never revive one, and only append ricochet kunai.
   */
  lemma {:induction false} PairScanFacts(rule: Rule, ps: seq<Missile>, i: nat, j: nat, st: Wreck)
    requires |st.dead| == |ps| && i < j
    ensures var r := PairScan(rule, ps, i, j, st);
      && (forall k :: 0 <= k < |ps| && r.dead[k] ==> st.dead[k] || !Indestructible(ps[k].kind))
      && (forall k :: 0 <= k < |ps| && st.dead[k] ==> r.dead[k])
      && |st.spawned| <= |r.spawned| && r.spawned[..|st.spawned|] == st.spawned
      && (Ricochets(st.spawned) ==> Ricochets(r.spawned))
    decreases |ps| - i, |ps| - j
  {
    if i >= |ps| {
    } else if j >= |ps| {
      PairScanFacts(rule, ps, i + 1, i + 2, st);
    } else {
      var next := Resolve(rule, ps, i, j, st);
      ResolveFacts(rule, ps, i, j, st);
      PairScanFacts(rule, ps, i, j + 1, next);
      var r := PairScan(rule, ps, i, j + 1, next);
      assert r.spawned[..|next.spawned|][..|st.spawned|] == r.spawned[..|st.spawned|];
    }
  }

  lemma ResolveFacts(rule: Rule, ps: seq<Missile>, i: nat, j: nat, st: Wreck)
    requires i < j < |ps| && |st.dead| == |ps|
    ensures var r := Resolve(rule, ps, i, j, st);
      && (forall k :: 0 <= k < |ps| && r.dead[k] ==> st.dead[k] || !Indestructible(ps[k].kind))
      && |st.spawned| <= |r.spawned| && r.spawned[..|st.spawned|] == st.spawned
      && (Ricochets(st.spawned) ==> Ricochets(r.spawned))
  {
  }

  lemma PairScanStep(rule: Rule, ps: seq<Missile>, i: nat, j: nat, st: Wreck)
    requires i < j < |ps| && |st.dead| == |ps|
    ensures PairScan(rule, ps, i, j, st) == PairScan(rule, ps, i, j + 1, Resolve(rule, ps, i, j, st))
  {
  }

  lemma PairScanRowEnd(rule: Rule, ps: seq<Missile>, i: nat, j: nat, st: Wreck)
    requires i < |ps| <= j && i < j && |st.dead| == |ps|
    ensures PairScan(rule, ps, i, j, st) == PairScan(rule, ps, i + 1, i + 2, st)
  {
  }

  /** The whole pair pass over a snapshot, starting with nothing killed. */
  function PairPass(rule: Rule, ps: seq<Missile>): (r: Wreck)
    ensures |r.dead| == |ps|
    ensures forall k :: 0 <= k < |ps| && r.dead[k] ==> !Indestructible(ps[k].kind)
    ensures Ricochets(r.spawned)
  {
    PairScanFacts(rule, ps, 0, 1, Wreck(seq(|ps|, _ => false), []));
    PairScan(rule, ps, 0, 1, Wreck(seq(|ps|, _ => false), []))
  }

  /**
   * The pass kills exactly the projectiles some touching pair's verdict
   * kills, both directions.
   */
  lemma PairPassKills(rule: Rule, ps: seq<Missile>)
    ensures forall k :: 0 <= k < |ps| ==>
      (PairPass(rule, ps).dead[k] <==> exists a: nat, b: nat :: PairKills(rule, ps, a, b, k))
  {
    var st := Wreck(seq(|ps|, _ => false), []);
    forall k | 0 <= k < |ps|
      ensures PairPass(rule, ps).dead[k] <==> exists a: nat, b: nat :: PairKills(rule, ps, a, b, k)
    {
      PairScanKills(rule, ps, 0, 1, st, k);
      forall a: nat, b: nat | PairKills(rule, ps, a, b, k)
        ensures Pending(0, 1, a, b)
      {
      }
    }
  }

  /**
   * Under the intended rule two touching destructible projectiles, not
   * both ricochets, always both break, whatever their order.
   */
  lemma IntendedPairBreaks(ps: seq<Missile>, a: nat, b: nat)
    requires a < b < |ps| && Overlaps(ps[a].rect, ps[b].rect)
    requires !Indestructible(ps[a].kind) && !Indestructible(ps[b].kind)
    requires !(ps[a].fromCollision && ps[b].fromCollision)
    ensures PairPass(Intended, ps).dead[a] && PairPass(Intended, ps).dead[b]
  {
    PairPassKills(Intended, ps);
    assert PairKills(Intended, ps, a, b, a);
    assert PairKills(Intended, ps, a, b, b);
  }

  /**
   * The program's pass on a thrown kunai followed by a touching ricochet
   * kunai: both survive, where the intended pass breaks both.
   */
  lemma AsWrittenPassSparesRicochet(m: Missile, n: Missile)
    requires m.kind == Kunai && n.kind == Kunai && !m.fromCollision && n.fromCollision
    requires Overlaps(m.rect, n.rect)
    ensures PairPass(AsWritten, [m, n]).dead == [false, false]
    ensures PairPass(Intended, [m, n]).dead == [true, true]
  {
    var ps := [m, n];
    PairPassKills(AsWritten, ps);
    PairPassKills(Intended, ps);
    assert PairKills(Intended, ps, 0, 1, 0) && PairKills(Intended, ps, 0, 1, 1);
    forall a: nat, b: nat, k: nat
      ensures !PairKills(AsWritten, ps, a, b, k)
    {
    }
  }

  /**
   * A projectile overlapping no other one survives the pair pass: kills
   * only happen to members of a touching pair.
   */
  lemma {:induction false} LoneProjectileSurvives(rule: Rule, ps: seq<Missile>, i: nat, j: nat, st: Wreck, k: nat)
    requires |st.dead| == |ps| && i < j && k < |ps| && !st.dead[k]
    requires forall l :: 0 <= l < |ps| && l != k ==> !Overlaps(ps[k].rect, ps[l].rect) && !Overlaps(ps[l].rect, ps[k].rect)
    ensures !PairScan(rule, ps, i, j, st).dead[k]
    decreases |ps| - i, |ps| - j
  {
    if i >= |ps| {
    } else if j >= |ps| {
      LoneProjectileSurvives(rule, ps, i + 1, i + 2, st, k);
    } else {
      var next := Resolve(rule, ps, i, j, st);
      assert !next.dead[k];
      LoneProjectileSurvives(rule, ps, i, j + 1, next, k);
    }
  }

  // ============================================================ level rules

  /** `create_enemies`' rank roll: S below 0.03, A below 0.08, B below 0.18, C below 0.33, else D. */
  function EnemyRank(chance: real): (r: Rank)
    ensures r != Unranked
  {
    if chance < 0.03 then S
    else if chance < 0.08 then A
    else if chance < 0.18 then B
    else if chance < 0.33 then C
    else D
  }

  /** `create_ally`'s rank roll: S below 0.3, A below 0.5, B below 0.7, C below 0.8, else D. */
  function AllyRank(chance: real): (r: Rank)
    ensures r != Unranked
  {
    if chance < 0.3 then S
    else if chance < 0.5 then A
    else if chance < 0.7 then B
    else if chance < 0.8 then C
    else D
  }

  /** A higher draw never rolls a stronger rank, for enemies and allies alike. */
  lemma RankRollsMonotone(c: real, c': real)
    requires c <= c'
    ensures Multiplier(EnemyRank(c')) <= Multiplier(EnemyRank(c))
    ensures Multiplier(AllyRank(c')) <= Multiplier(AllyRank(c))
  {
  }

  /** On the same draw the ally is never weaker than an enemy. */
  lemma AllyRollFavoured(c: real)
    ensures Multiplier(EnemyRank(c)) <= Multiplier(AllyRank(c))
  {
  }

  /** `adjust_wall_thickness`: below 0.5 one thinner but never under 1, else one thicker. */
  function AdjustWallThickness(thickness: int, draw: real): (r: int)
    ensures r >= 1 || r == thickness + 1
    ensures draw < 0.5 ==> r <= Max(1, thickness)
    ensures draw < 0.5 && thickness >= 2 ==> r == thickness - 1
    ensures draw < 0.5 && thickness < 2 ==> r == 1
    ensures draw >= 0.5 ==> r == thickness + 1
  {
    if draw < 0.5 then Max(1, thickness - 1) else thickness + 1
  }

  /** Successive adjustments, one per draw. */
  function Thicknesses(thickness: int, draws: seq<real>): int
    decreases |draws|
  {
    if |draws| == 0 then thickness
    else AdjustWallThickness(Thicknesses(thickness, draws[..|draws| - 1]), draws[|draws| - 1])
  }

  /** A wall that starts at least one tile thick stays so, and grows by at most one per draw. */
  lemma {:induction false} WallThicknessBounds(thickness: int, draws: seq<real>)
    requires thickness >= 1
    ensures 1 <= Thicknesses(thickness, draws) <= thickness + |draws|
    decreases |draws|
  {
    if |draws| > 0 {
      WallThicknessBounds(thickness, draws[..|draws| - 1]);
    }
  }

  /** `spawn_blood`: `min(amount, 5)` particles, none for a non-positive amount. */
  function BloodCount(amount: int): (n: nat)
    ensures n <= 5
    ensures 0 <= amount <= 5 ==> n == amount
    ensures amount >= 5 ==> n == 5
    ensures amount <= 0 ==> n == 0
  {
    if amount <= 0 then 0 else if amount < 5 then amount else 5
  }

  /** A player hit of 2.5 or more, whose splash is `int(2 * amount)`, always throws all five particles. */
  lemma FullSplash(amount: real)
    requires amount >= 2.5
    ensures BloodCount(Trunc(amount * 2.0)) == 5
  {
  }

  /**
   * `next_level`: the level number goes up by one and the player earns
   * that level's experience; past level 30 the table lookup raises
   * KeyError. On that path the program has already raised its level
   * number by one; the error result does not carry it.
   */
  function NextLevel(levelNumber: int, experience: int): (r: Result<(int, int)>)
    ensures r.Err? <==> !(0 <= levelNumber < 30)
    ensures r.Ok? ==> r.value.0 == levelNumber + 1 && r.value.1 == experience + LevelData(levelNumber + 1).value.experience
  {
    LevelKeys(levelNumber + 1);
    match LevelData(levelNumber + 1)
    case None => Err(KeyError("level"))
    case Some(info) => Ok((levelNumber + 1, experience + info.experience))
  }

  /** Finishing the last level is a KeyError; every earlier one adds experience. */
  lemma LastLevelHasNoSuccessor(experience: int)
    ensures NextLevel(30, experience).Err?
    ensures forall n :: 1 <= n < 30 ==> NextLevel(n, experience).Ok? && NextLevel(n, experience).value.1 > experience
  {
    forall n | 1 <= n < 30
      ensures NextLevel(n, experience).Ok? && NextLevel(n, experience).value.1 > experience
    {
      LevelKeys(n + 1);
      assert LevelData(n + 1).value.experience > 0;
    }
  }

  // ============================================================ the level

  class Level {
    var playerLastMeleeTime: int
    var enemyLastMeleeTime: int
    /** The `Projectile` members of the projectile group, in insertion order. */
    var projectiles: seq<Missile>

    constructor ()
      ensures playerLastMeleeTime == 0 && enemyLastMeleeTime == 0 && projectiles == []
    {
      playerLastMeleeTime := 0;
      enemyLastMeleeTime := 0;
      projectiles := [];
    }

    /** Whether both melee timestamps are at least 2000 ms old. */
    predicate MeleeReady(now: int)
      reads this
    {
      now - playerLastMeleeTime >= MeleeGate && now - enemyLastMeleeTime >= MeleeGate
    }

    /**
     * `melee_combat`: within 2000 ms of either timestamp nobody is hurt and
     * nothing changes; otherwise both timestamps become `now` and the
     * exchange is rolled.
     */
    method MeleeCombat(now: int, p: Fighter, e: Fighter, playerDraw: real, enemyDraw: real) returns (r: Result<Exchange>)
      modifies this`playerLastMeleeTime, this`enemyLastMeleeTime
      ensures !old(MeleeReady(now)) ==>
        r == Ok(Exchange(0, 0)) && playerLastMeleeTime == old(playerLastMeleeTime) && enemyLastMeleeTime == old(enemyLastMeleeTime)
      ensures old(MeleeReady(now)) ==>
        playerLastMeleeTime == now && enemyLastMeleeTime == now && r == MeleeOutcome(p, e, playerDraw, enemyDraw)
      ensures !MeleeReady(now)
    {
      if now - playerLastMeleeTime < MeleeGate || now - enemyLastMeleeTime < MeleeGate {
        return Ok(Exchange(0, 0));
      }
      playerLastMeleeTime := now;
      enemyLastMeleeTime := now;
      r := MeleeOutcome(p, e, playerDraw, enemyDraw);
    }

    /**
     * `check_player_enemy_collisions`: for each enemy touching the player,
     * while the player is not invincible, an exchange is rolled; the
     * player's share goes to `Player.take_damage` with the unit vector from
     * the enemy, and the enemy's share becomes an `EnemyHit` event, each
     * only when its knockback vector is not zero. The shared cooldown lets
     * only the first contact's exchange through, and only when both
     * timestamps are old enough; an invincible player is left alone. A
     * zero odds denominator in that exchange is the pass's `Err`.
     */
    method CheckPlayerEnemyCollisions(player: Players.Player, me: Fighter, contacts: seq<Contact>, now: int, rolls: seq<Roll>)
      returns (r: Result<seq<Event>>)
      requires |rolls| == |contacts|
      requires forall k :: 0 <= k < |rolls| ==> rolls[k].pick < |Cardinals|
      requires forall k :: 0 <= k < |contacts| ==>
        contacts[k].distance >= 0.0 &&
        contacts[k].distance * contacts[k].distance == DistSq(player.rect.Center(), contacts[k].centre) as real
      modifies this`playerLastMeleeTime, this`enemyLastMeleeTime
      modifies player`hp, player`rect, player`alive, player`invincible, player`invincibleStart,
               player`knockbackVelocity, player`knockedBack, player`knockbackStart
      ensures old(player.invincible) || !old(MeleeReady(now)) || |contacts| == 0 ==>
        r == Ok([]) && player.hp == old(player.hp) && player.rect == old(player.rect) &&
        player.GuardState() == old(player.GuardState()) &&
        playerLastMeleeTime == old(playerLastMeleeTime) && enemyLastMeleeTime == old(enemyLastMeleeTime)
      ensures !old(player.invincible) && old(MeleeReady(now)) && |contacts| > 0 ==>
        var x := MeleeOutcome(me, contacts[0].fighter, rolls[0].playerDraw, rolls[0].enemyDraw);
        && playerLastMeleeTime == now && enemyLastMeleeTime == now
        && (r.Err? <==> x.Err?)
        && (x.Err? ==> player.hp == old(player.hp) && player.rect == old(player.rect) && player.GuardState() == old(player.GuardState()))
        && (x.Ok? ==> r.Ok? && ExchangeOutcome(x.value, contacts[0], rolls[0], old(player.hp), player.hp, old(player.rect), player.rect, r.value))
        && (x.Ok? ==> player.GuardState() == GuardAfter(x.value, contacts[0], old(player.rect), old(player.GuardState()), player.hp, now))
    {
      ghost var hp0, rect0, invincible0, ready0 := player.hp, player.rect, player.invincible, MeleeReady(now);
      ghost var guard0 := player.GuardState();
      ghost var times0 := (playerLastMeleeTime, enemyLastMeleeTime);
      ghost var first := if |contacts| > 0 then MeleeOutcome(me, contacts[0].fighter, rolls[0].playerDraw, rolls[0].enemyDraw) else Ok(Exchange(0, 0));
      var events: seq<Event> := [];
      var k := 0;
      while k < |contacts|
        invariant 0 <= k <= |contacts|
        invariant (k == 0 || invincible0 || !ready0) ==>
          events == [] && player.hp == hp0 && player.rect == rect0 && player.GuardState() == guard0 &&
          (playerLastMeleeTime, enemyLastMeleeTime) == times0
        invariant k == 0 ==> player.invincible == invincible0
        invariant invincible0 ==> player.invincible
        invariant k > 0 ==> player.invincible || !MeleeReady(now)
        invariant k > 0 && !invincible0 && ready0 ==>
          && playerLastMeleeTime == now && enemyLastMeleeTime == now && first.Ok?
          && ExchangeOutcome(first.value, contacts[0], rolls[0], hp0, player.hp, rect0, player.rect, events)
          && player.GuardState() == GuardAfter(first.value, contacts[0], rect0, guard0, player.hp, now)
      {
        if !player.invincible {
          var mine := Encounter(player, me, contacts[k], rolls[k], now);
          if mine.Err? {
            return Err(mine.error);
          }
          events := events + mine.value;
        }
        k := k + 1;
      }
      r := Ok(events);
    }

    /**
     * One contact of `check_player_enemy_collisions` while the player is
     * not invincible: the exchange, then the knockback tests on the
     * player's current centre.
     */
    method Encounter(player: Players.Player, me: Fighter, c: Contact, roll: Roll, now: int) returns (r: Result<seq<Event>>)
      requires roll.pick < |Cardinals| && !player.invincible
      modifies this`playerLastMeleeTime, this`enemyLastMeleeTime
      modifies player`hp, player`rect, player`alive, player`invincible, player`invincibleStart,
               player`knockbackVelocity, player`knockedBack, player`knockbackStart
      ensures !old(MeleeReady(now)) ==>
        r == Ok([]) && player.hp == old(player.hp) && player.rect == old(player.rect) &&
        player.GuardState() == old(player.GuardState()) &&
        playerLastMeleeTime == old(playerLastMeleeTime) && enemyLastMeleeTime == old(enemyLastMeleeTime)
      ensures old(MeleeReady(now)) ==>
        var x := MeleeOutcome(me, c.fighter, roll.playerDraw, roll.enemyDraw);
        && playerLastMeleeTime == now && enemyLastMeleeTime == now
        && (r.Err? <==> x.Err?)
        && (x.Err? ==> player.hp == old(player.hp) && player.rect == old(player.rect) && player.GuardState() == old(player.GuardState()))
        && (x.Ok? ==> r.Ok? && ExchangeOutcome(x.value, c, roll, old(player.hp), player.hp, old(player.rect), player.rect, r.value))
        && (x.Ok? ==> player.GuardState() == GuardAfter(x.value, c, old(player.rect), old(player.GuardState()), player.hp, now))
      ensures !MeleeReady(now)
    {
      var outcome := MeleeCombat(now, me, c.fighter, roll.playerDraw, roll.enemyDraw);
      if outcome.Err? {
        return Err(outcome.error);
      }
      var x := outcome.value;
      var origin := player.rect.Center();
      if x.toPlayer > 0 && c.distance > 0.0 {
        var knock := Vec((origin.x - c.centre.x) as real / c.distance, (origin.y - c.centre.y) as real / c.distance);
        var _ := player.TakeDamage(x.toPlayer as real, knock, now, roll.kawarimiDraw, roll.pick);
      }
      r := Ok(if x.toEnemy > 0 && player.rect.Center() != c.centre then [EnemyHit(c.enemy, x.toEnemy)] else []);
    }

    /**
     * `check_projectile_collisions` for the `Projectile` members: every
     * striking projectile damages each enemy it meets and is then killed.
     */
    method CheckProjectileCollisions(enemyHits: seq<seq<nat>>) returns (events: seq<Event>)
      requires |enemyHits| == |projectiles|
      modifies this`projectiles
      ensures events == DamageEvents(old(projectiles), enemyHits)
      ensures projectiles == Keep(old(projectiles), DamageKills(old(projectiles), enemyHits))
    {
      var ps := projectiles;
      var dead: seq<bool> := [];
      events := [];
      var k := 0;
      while k < |ps|
        invariant 0 <= k <= |ps|
        invariant events == DamageEvents(ps[..k], enemyHits[..k])
        invariant |dead| == k
        invariant forall l :: 0 <= l < k ==> (dead[l] <==> Strikes(ps[l]) && |enemyHits[l]| > 0)
      {
        DamageEventsStep(ps, enemyHits, k);
        var killed := false;
        if Strikes(ps[k]) {
          var mine := StrikeAll(enemyHits[k], ps[k].damage);
          events := events + mine;
          killed := |enemyHits[k]| > 0;
        }
        dead := dead + [killed];
        k := k + 1;
      }
      assert ps[..|ps|] == ps;
      assert enemyHits[..|enemyHits|] == enemyHits;
      assert dead == DamageKills(ps, enemyHits);
      projectiles := Keep(ps, dead);
    }

    /**
     * `check_projectile_projectile_collisions`: the pair pass over a
     * snapshot of the group under the program's own pair rule, then the
     * killed ones leave the group and the ricochets join it at the end.
     */
    method CheckProjectileProjectileCollisions()
      modifies this`projectiles
      ensures projectiles == Keep(old(projectiles), PairPass(AsWritten, old(projectiles)).dead) + PairPass(AsWritten, old(projectiles)).spawned
    {
      var ps := projectiles;
      var st := Wreck(seq(|ps|, _ => false), []);
      ghost var target := PairPass(AsWritten, ps);
      var i := 0;
      while i < |ps|
        invariant 0 <= i <= |ps| || (|ps| == 0 && i == 0)
        invariant |st.dead| == |ps|
        invariant target == PairScan(AsWritten, ps, i, i + 1, st)
      {
        var j := i + 1;
        while j < |ps|
          invariant i + 1 <= j <= |ps|
          invariant |st.dead| == |ps|
          invariant target == PairScan(AsWritten, ps, i, j, st)
        {
          ghost var before := st;
          if Overlaps(ps[i].rect, ps[j].rect) {
            var v := ArbitrateAsWritten(ps[i], ps[j]);
            if v == DestroyBoth {
              st := Destroy(ps, i, st);
              st := Destroy(ps, j, st);
            } else if v == DestroyFirst {
              st := Destroy(ps, i, st);
            } else if v == DestroySecond {
              st := Destroy(ps, j, st);
            }
          }
          assert st == Resolve(AsWritten, ps, i, j, before);
          PairScanStep(AsWritten, ps, i, j, before);
          j := j + 1;
        }
        PairScanRowEnd(AsWritten, ps, i, j, st);
        i := i + 1;
      }
      projectiles := Keep(ps, st.dead) + st.spawned;
    }
  }

  /**
   * The inner loop of `check_projectile_collisions`: one striking projectile
   * damages, in order, every enemy it touches.
   */
  method StrikeAll(hits: seq<nat>, damage: int) returns (mine: seq<Event>)
    ensures mine == HitsFor(hits, damage)
  {
    mine := [];
    var n := 0;
    while n < |hits|
      invariant 0 <= n <= |hits|
      invariant mine == HitsFor(hits[..n], damage)
    {
      HitsForAppend(hits[..n], hits[n], damage);
      assert hits[..n + 1] == hits[..n] + [hits[n]];
      mine := mine + [EnemyHit(hits[n], damage)];
      n := n + 1;
    }
    assert hits[..|hits|] == hits;
  }

  lemma DamageEventsStep(ps: seq<Missile>, enemyHits: seq<seq<nat>>, k: nat)
    requires |enemyHits| == |ps| && k < |ps|
    ensures DamageEvents(ps[..k + 1], enemyHits[..k + 1]) ==
      DamageEvents(ps[..k], enemyHits[..k]) + (if Strikes(ps[k]) then HitsFor(enemyHits[k], ps[k].damage) else [])
  {
    assert ps[..k + 1][..k] == ps[..k];
    assert enemyHits[..k + 1][..k] == enemyHits[..k];
  }

  lemma HitsForAppend(victims: seq<nat>, e: nat, amount: int)
    ensures HitsFor(victims + [e], amount) == HitsFor(victims, amount) + [EnemyHit(e, amount)]
  {
  }
}

/**
 * Map tiles and the effects they carry. A tile keeps an ordered list of
 * effects; stepping on it applies each effect to the entity in list order.
 */
module Tiles {
  import opened Wrappers
  import opened Geometry

  /** The three effect classes: the inert base Effect, SlowEffect and DamageEffect. */
  datatype Effect =
    | BaseEffect(name: string, duration: int)
    | SlowEffect(duration: int, slowAmount: int)
    | DamageEffect(duration: int, damageAmount: int)
  {
    function Name(): string
    {
      match this
      case BaseEffect(n, _) => n
      case SlowEffect(_, _) => "Slow"
      case DamageEffect(_, _) => "Damage"
    }
  }

  /**
   * What an effect acts on: the entity's speed. A damage effect calls
   * `take_damage(amount, knockback)` with two arguments, and every class
   * that defines `take_damage` takes at least three (player.py:630,
   * characters.py:297 and 512, ally.py:433), so the call raises TypeError
   * before any damage is done.
   */
  class Entity {
    var speed: int

    constructor (speed: int)
      ensures this.speed == speed
    {
      this.speed := speed;
    }
  }

  /** The TypeError that a damage effect's two-argument `take_damage` call raises. */
  const DamageCallError := TypeError("take_damage() missing a required positional argument")

  function SlowOf(e: Effect): int
  {
    if e.SlowEffect? then e.slowAmount else 0
  }

  /** The total speed a list of effects takes away. */
  function TotalSlow(effects: seq<Effect>): int
  {
    if effects == [] then 0 else SlowOf(effects[0]) + TotalSlow(effects[1..])
  }

  /**
   * How many effects a trigger applies in full: the position of the first
   * damage effect, or the whole list when there is none.
   */
  function Applied(effects: seq<Effect>): (n: nat)
    ensures n <= |effects|
    ensures forall j :: 0 <= j < n ==> !effects[j].DamageEffect?
    ensures n < |effects| ==> effects[n].DamageEffect?
  {
    if effects == [] || effects[0].DamageEffect? then 0 else 1 + Applied(effects[1..])
  }

  /** Applying a concatenation slows as the two parts do one after the other. */
  lemma {:induction false} TriggerSplits(a: seq<Effect>, b: seq<Effect>)
    ensures TotalSlow(a + b) == TotalSlow(a) + TotalSlow(b)
  {
    if a != [] {
      assert (a + b)[1..] == a[1..] + b;
      TriggerSplits(a[1..], b);
    } else {
      assert a + b == b;
    }
  }

  /** `list.remove`: drop the first element equal to `x`; no change when absent. */
  function RemoveFirst(s: seq<Effect>, x: Effect): seq<Effect>
  {
    if s == [] then [] else if s[0] == x then s[1..] else [s[0]] + RemoveFirst(s[1..], x)
  }

  /**
   * Removing cuts out exactly the first occurrence: everything before it and
   * after it stays, in order.
   */
  lemma {:induction false} RemoveFirstAt(s: seq<Effect>, x: Effect, i: nat)
    requires i < |s| && s[i] == x && x !in s[..i]
    ensures RemoveFirst(s, x) == s[..i] + s[i + 1..]
  {
    if i > 0 {
      assert s[0] in s[..i];
      assert s[1..][..i - 1] == s[1..i];
      assert x !in s[1..][..i - 1];
      RemoveFirstAt(s[1..], x, i - 1);
      assert s[..i] == [s[0]] + s[1..i];
    }
  }

  /** Removing an absent effect changes nothing. */
  lemma {:induction false} RemoveAbsent(s: seq<Effect>, x: Effect)
    requires x !in s
    ensures RemoveFirst(s, x) == s
  {
    if s != [] {
      assert x !in s[1..];
      RemoveAbsent(s[1..], x);
    }
  }

  /** Removal takes exactly one copy of a present effect out of the list. */
  lemma {:induction false} RemoveFirstCount(s: seq<Effect>, x: Effect)
    ensures x in s ==> multiset(RemoveFirst(s, x)) == multiset(s) - multiset{x}
    ensures x !in s ==> RemoveFirst(s, x) == s
  {
    if s == [] {
    } else if s[0] == x {
      assert s == [s[0]] + s[1..];
    } else {
      RemoveFirstCount(s[1..], x);
      assert s == [s[0]] + s[1..];
    }
  }

  /** Adding a present effect and removing it again gives back the list before it was added. */
  lemma {:induction false} RemoveUndoesAdd(s: seq<Effect>, x: Effect)
    requires x !in s
    ensures RemoveFirst(s + [x], x) == s
  {
    assert (s + [x])[..|s|] == s;
    RemoveFirstAt(s + [x], x, |s|);
    assert (s + [x])[|s| + 1..] == [];
  }

  /** `effect.apply(entity)` for each effect class; a damage effect raises. */
  method Apply(e: Effect, entity: Entity) returns (r: Result<()>)
    modifies entity
    ensures r.Err? <==> e.DamageEffect?
    ensures r.Err? ==> r.error == DamageCallError
    ensures entity.speed == old(entity.speed) - SlowOf(e)
  {
    r := Ok(());
    match e
    case BaseEffect(_, _) =>
    case SlowEffect(_, amount) =>
      entity.speed := entity.speed - amount;
    case DamageEffect(_, _) =>
      r := Err(DamageCallError);
  }

  class Tile {
    var effects: seq<Effect>
    const collidable: bool
    const tileType: string
    /** The tile image's rect, placed by its bottom-right corner. */
    const rect: Rect

    /** A tile built without an effects list starts with an empty one. */
    constructor (bottomRight: Point, imageWidth: nat, imageHeight: nat, collidable: bool, tileType: string, effects: Option<seq<Effect>>)
      ensures this.effects == (if effects.Some? then effects.value else [])
      ensures this.collidable == collidable && this.tileType == tileType
      ensures rect.RightEdge() == bottomRight.x && rect.BottomEdge() == bottomRight.y
    {
      this.effects := if effects.Some? then effects.value else [];
      this.collidable := collidable;
      this.tileType := tileType;
      this.rect := Rect(bottomRight.x - imageWidth, bottomRight.y - imageHeight, imageWidth, imageHeight);
    }

    method AddEffect(e: Effect)
      modifies this`effects
      ensures effects == old(effects) + [e]
    {
      effects := effects + [e];
    }

    /** Finds the first occurrence, then cuts it out; absent effects leave the list alone. */
    method RemoveEffect(e: Effect)
      modifies this`effects
      ensures effects == RemoveFirst(old(effects), e)
      ensures |effects| == if e in old(effects) then |old(effects)| - 1 else |old(effects)|
    {
      var i := 0;
      while i < |effects| && effects[i] != e
        invariant 0 <= i <= |effects|
        invariant e !in effects[..i]
      {
        i := i + 1;
      }
      if i < |effects| {
        RemoveFirstAt(effects, e, i);
        effects := effects[..i] + effects[i + 1..];
      } else {
        assert effects[..i] == effects;
        RemoveAbsent(effects, e);
      }
    }

    /**
     * Applies the effects in list order. The first damage effect raises, and
     * the exception ends the loop: the effects before it have acted, the rest
     * never run.
     */
    method TriggerEffects(entity: Entity) returns (r: Result<()>)
      modifies entity
      ensures r.Err? <==> exists j :: 0 <= j < |effects| && effects[j].DamageEffect?
      ensures r.Err? ==> r.error == DamageCallError
      ensures entity.speed == old(entity.speed) - TotalSlow(effects[..Applied(effects)])
    {
      r := Ok(());
      var i := 0;
      while i < |effects|
        invariant 0 <= i <= Applied(effects)
        invariant r.Ok?
        invariant entity.speed == old(entity.speed) - TotalSlow(effects[..i])
      {
        TriggerSplits(effects[..i], [effects[i]]);
        assert effects[..i + 1] == effects[..i] + [effects[i]];
        r := Apply(effects[i], entity);
        if r.Err? {
          return;
        }
        i := i + 1;
      }
      assert effects[..i] == effects;
    }
  }
}

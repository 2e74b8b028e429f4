/** A dropped weapon bouncing in place until the player picks it up. */
module ItemDrops {
  import opened Geometry
  import Settings

  const BounceHeight: real := 20.0
  const BounceSpeed: real := 30.0

  /**
   * One bounce step: move by direction × speed × dt, then clamp at the top
   * (turning down) or at the ground (turning up). The result is always within
   * the bounce range, the direction only turns at an end, and a step that stays
   * in range moves freely.
   */
  function BounceStep(offset: real, direction: int, dt: real): (r: (real, int))
    ensures 0.0 <= r.0 <= BounceHeight
    ensures r.1 != direction ==> (r.0 == BounceHeight && r.1 == -1) || (r.0 == 0.0 && r.1 == 1)
    ensures var moved := offset + direction as real * BounceSpeed * dt;
      0.0 <= moved <= BounceHeight ==> r == (moved, direction)
    ensures var moved := offset + direction as real * BounceSpeed * dt;
      moved > BounceHeight ==> r == (BounceHeight, -1)
    ensures var moved := offset + direction as real * BounceSpeed * dt;
      moved < 0.0 ==> r == (0.0, 1)
  {
    var moved := offset + direction as real * BounceSpeed * dt;
    if moved > BounceHeight then (BounceHeight, -1)
    else if moved < 0.0 then (0.0, 1)
    else (moved, direction)
  }

  class ItemDrop {
    const item: string
    /** The y of the drop position (the rect was placed by its centre there). */
    const startY: int
    var bounceOffset: real
    var bounceDirection: int
    var rect: Rect

    /** `choice` is the draw of `random.choice` over the drop_data keys. */
    constructor (pos: Point, imageWidth: nat, imageHeight: nat, choice: nat)
      requires choice < |Settings.DropItems|
      ensures item == Settings.DropItems[choice] && item in Settings.DropItems
      ensures bounceOffset == 0.0 && bounceDirection == 1
      ensures rect.Center() == pos
    {
      item := Settings.DropItems[choice];
      startY := pos.y;
      bounceOffset := 0.0;
      bounceDirection := 1;
      rect := Rect(pos.x - imageWidth / 2, pos.y - imageHeight / 2, imageWidth, imageHeight);
    }

    method Update(dt: real)
      modifies this
      ensures (bounceOffset, bounceDirection) == BounceStep(old(bounceOffset), old(bounceDirection), dt)
      ensures 0.0 <= bounceOffset <= BounceHeight
      ensures rect == old(rect).(top := Trunc(startY as real - bounceOffset))
    {
      bounceOffset := bounceOffset + bounceDirection as real * BounceSpeed * dt;
      if bounceOffset > BounceHeight {
        bounceOffset := BounceHeight;
        bounceDirection := -1;
      } else if bounceOffset < 0.0 {
        bounceOffset := 0.0;
        bounceDirection := 1;
      }
      rect := rect.(top := Trunc(startY as real - bounceOffset));
    }
  }
}

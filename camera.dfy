/**
 * The scrolling camera: a rect whose top-left corner is the offset added to
 * every world rect when drawing, re-centred on the followed sprite each frame.
 */
module CameraView {
  import opened Wrappers
  import opened Geometry

  /** `rect.move(camera.topleft)`: shift by the camera's corner, keep the size. */
  function Translate(r: Rect, camera: Rect): Rect
  {
    r.Move(camera.left, camera.top)
  }

  /**
   * The camera rect that puts the target's top-left corner at the screen
   * centre: `int(width / 2)` is the floor for the non-negative screen size.
   */
  function TargetCameraRect(target: Rect, camera: Rect, width: nat, height: nat): Rect
  {
    Rect(-target.left + width / 2, -target.top + height / 2, camera.width, camera.height)
  }

  /** The visible area in world coordinates. */
  function VisibleRect(camera: Rect, width: nat, height: nat): Rect
  {
    Rect(-camera.left, -camera.top, width, height)
  }

  /** Translation keeps the size and moves the corner by the camera offset. */
  lemma TranslateMoves(r: Rect, camera: Rect)
    ensures Translate(r, camera).width == r.width && Translate(r, camera).height == r.height
    ensures Translate(r, camera).left - r.left == camera.left
    ensures Translate(r, camera).top - r.top == camera.top
  {
  }

  /** After following a target, that target is drawn with its corner at the screen centre. */
  lemma FollowedTargetIsCentred(target: Rect, camera: Rect, width: nat, height: nat)
    ensures var c := TargetCameraRect(target, camera, width, height);
      Translate(target, c).left == width / 2 && Translate(target, c).top == height / 2
  {
  }

  /** The visible area maps back to the screen origin, at the screen's size. */
  lemma VisibleRectIsScreen(camera: Rect, width: nat, height: nat)
    ensures Translate(VisibleRect(camera, width, height), camera) == Rect(0, 0, width, height)
  {
  }

  class Camera {
    var camera: Rect
    const width: nat
    const height: nat
    var target: Option<Rect>

    constructor (width: nat, height: nat)
      ensures camera == Rect(0, 0, width, height) && target.None?
      ensures this.width == width && this.height == height
    {
      camera := Rect(0, 0, width, height);
      this.width := width;
      this.height := height;
      target := None;
    }

    /** `apply` and `apply_rect`: a world rect in screen coordinates. */
    function Apply(r: Rect): (s: Rect)
      reads this
      ensures s.width == r.width && s.height == r.height
      ensures s.left == r.left + camera.left && s.top == r.top + camera.top
    {
      Translate(r, camera)
    }

    function GetVisibleRect(): (v: Rect)
      reads this
      ensures Apply(v) == Rect(0, 0, width, height)
    {
      VisibleRectIsScreen(camera, width, height);
      VisibleRect(camera, width, height)
    }

    /** Follows the target when there is one; without one the camera stays put. */
    method Update(target: Option<Rect>)
      modifies this
      ensures this.target == target
      ensures target.None? ==> camera == old(camera)
      ensures target.Some? ==> camera == TargetCameraRect(target.value, old(camera), width, height)
      ensures target.Some? ==> Apply(target.value).left == width / 2 && Apply(target.value).top == height / 2
      ensures camera.width == old(camera.width) && camera.height == old(camera.height)
    {
      this.target := target;
      if target.Some? {
        camera := TargetCameraRect(target.value, camera, width, height);
      }
    }
  }
}

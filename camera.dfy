/** The camera of the nebula simulator (Nebula-Simulator/camera.py): the
    projection between world and screen coordinates, and the controls that
    move, zoom and lock the view. Stars are named by their index in the
    nebula's registry; the camera's `center` either is a fixed point or
    follows a star, as the Python code does by aliasing the star's position
    vector. */
module Cameras {
  import opened Numbers
  import opened Vectors
  import opened Wrappers
  import opened Stars

  /** Pixels per second of keyboard and edge-of-screen movement. */
  const MoveSpeed: real := 300.0
  /** Relative zoom per second. */
  const ScaleSpeed: real := 0.6
  /** Width of the band along the window's edge that pushes the view. */
  const Padding: real := 5.0

  /** `self.center`: a point of its own, or the position vector of a star,
      which moves with the star. */
  datatype Center = Fixed(point: Vec2) | Follows(id: nat)

  /** project2screen: `(pos - center) * scale + offset`. The centre lands
      on the offset and the projection is affine in `pos`. */
  function ToScreen(pos: Vec2, center: Vec2, scale: real, offset: Vec2): (q: Vec2)
    ensures pos == center ==> q == offset
    ensures Sub(q, offset) == Scale(scale, Sub(pos, center))
  {
    Vec2((pos.x - center.x) * scale + offset.x, (pos.y - center.y) * scale + offset.y)
  }

  /** project2real: `(pos - offset) / scale + center`, undefined (a
      division by zero) at scale 0. It inverts ToScreen. */
  function ToReal(q: Vec2, center: Vec2, scale: real, offset: Vec2): (pos: Vec2)
    requires scale != 0.0
    ensures ToScreen(pos, center, scale, offset) == q
  {
    var pos := Vec2((q.x - offset.x) / scale + center.x, (q.y - offset.y) / scale + center.y);
    assert (q.x - offset.x) / scale * scale == q.x - offset.x;
    assert (q.y - offset.y) / scale * scale == q.y - offset.y;
    pos
  }

  /** The other round trip: a world point projected to the screen and back
      is the same point. */
  lemma RealOfScreen(pos: Vec2, center: Vec2, scale: real, offset: Vec2)
    requires scale != 0.0
    ensures ToReal(ToScreen(pos, center, scale, offset), center, scale, offset) == pos
  {
    var q := ToScreen(pos, center, scale, offset);
    assert q.x - offset.x == (pos.x - center.x) * scale;
    assert q.y - offset.y == (pos.y - center.y) * scale;
    assert (pos.x - center.x) * scale / scale == pos.x - center.x;
    assert (pos.y - center.y) * scale / scale == pos.y - center.y;
  }

  /** The keys keyboard_control looks at. */
  datatype Keys = Keys(up: bool, down: bool, left: bool, right: bool, minus: bool, equals: bool)

  /** The offset shift of keyboard_control: UP wins over DOWN and LEFT
      over RIGHT, and each axis moves by exactly `move_speed * dt`. */
  function KeyShift(keys: Keys, dt: real): (r: Vec2)
    ensures keys.up ==> r.y == -MoveSpeed * dt
    ensures !keys.up && keys.down ==> r.y == MoveSpeed * dt
    ensures !keys.up && !keys.down ==> r.y == 0.0
    ensures keys.left ==> r.x == -MoveSpeed * dt
    ensures !keys.left && keys.right ==> r.x == MoveSpeed * dt
    ensures !keys.left && !keys.right ==> r.x == 0.0
  {
    var d := MoveSpeed * dt;
    Vec2(if keys.left then -d else if keys.right then d else 0.0,
         if keys.up then -d else if keys.down then d else 0.0)
  }

  /** Pressing the opposite single keys moves the view back by the same
      amount. */
  lemma KeyShiftOpposite(keys: Keys, dt: real)
    requires keys.up != keys.down && keys.left != keys.right
    ensures var flipped := keys.(up := keys.down, down := keys.up, left := keys.right, right := keys.left);
      Add(KeyShift(keys, dt), KeyShift(flipped, dt)) == Zero
  {
  }

  /** The zoom factor of keyboard_control: MINUS wins over EQUALS. */
  function KeyZoom(keys: Keys): (factor: real)
    ensures keys.minus ==> factor == -1.0
    ensures !keys.minus && keys.equals ==> factor == 1.0
    ensures !keys.minus && !keys.equals ==> factor == 0.0
  {
    if keys.minus then -1.0 else if keys.equals then 1.0 else 0.0
  }

  /** The point of `[padding, width - padding] x [padding, height - padding]`
      nearest to the mouse. */
  function Clamped(mouse: Vec2, width: real, height: real): (p: Vec2)
    ensures Padding <= p.x && Padding <= p.y
    ensures Padding <= width - Padding ==> p.x <= width - Padding
    ensures Padding <= height - Padding ==> p.y <= height - Padding
    ensures Inside(mouse, width, height) ==> p == mouse
  {
    Vec2(ClampReal(mouse.x, Padding, width - Padding), ClampReal(mouse.y, Padding, height - Padding))
  }

  predicate Inside(mouse: Vec2, width: real, height: real)
  {
    Padding <= mouse.x <= width - Padding && Padding <= mouse.y <= height - Padding
  }

  /** The movement mouse_push subtracts from the offset: the way out of
      the padded window, stretched to `move_speed * dt`. When the mouse is
      inside, the movement is zero and scale_to_length raises, which the
      code swallows, so the zero movement is subtracted. */
  function Push(mouse: Vec2, width: real, height: real, dt: real, norm: Vec2 -> real): (m: Vec2)
    requires IsNorm(norm)
    ensures Inside(mouse, width, height) ==> m == Zero
  {
    var out := Sub(mouse, Clamped(mouse, width, height));
    if LengthSquared(out) != 0.0 then ScaleToLength(norm, out, MoveSpeed * dt)
    else out
  }

  /** Outside the padded window, the push has length `move_speed * dt`
      and points the way the mouse left the window. */
  lemma PushOutside(mouse: Vec2, width: real, height: real, dt: real, norm: Vec2 -> real)
    requires IsNorm(norm)
    requires !Inside(mouse, width, height) && Padding <= width - Padding && Padding <= height - Padding
    ensures var out, m := Sub(mouse, Clamped(mouse, width, height)), Push(mouse, width, height, dt, norm);
      LengthSquared(m) == (MoveSpeed * dt) * (MoveSpeed * dt) && Scale(norm(out), m) == Scale(MoveSpeed * dt, out)
  {
    var out := Sub(mouse, Clamped(mouse, width, height));
    OutsideAway(mouse, width, height);
    assert out != Zero;
    LengthSquaredPositive(out);
  }

  /** Outside the padded window the mouse is away from its clamped point. */
  lemma OutsideAway(mouse: Vec2, width: real, height: real)
    ensures !Inside(mouse, width, height) && Padding <= width - Padding && Padding <= height - Padding ==>
      Clamped(mouse, width, height) != mouse
  {
  }

  /** Subtracting the zero vector changes nothing. */
  lemma SubZero(a: Vec2, m: Vec2)
    ensures m == Zero ==> Sub(a, m) == a
  {
  }

  class Camera {
    const width: real
    const height: real
    const screenCenter: Vec2
    var scale: real
    var offset: Vec2
    var center: Center
    /** The star under the mouse, and the star the view is locked on. */
    var hover: Option<nat>
    var target: Option<nat>

    constructor(width: real, height: real)
      ensures this.width == width && this.height == height
      ensures screenCenter == Vec2(width / 2.0, height / 2.0)
      ensures scale == 1.0 && offset == screenCenter && center == Fixed(screenCenter)
      ensures hover == None && target == None
    {
      this.width, this.height := width, height;
      screenCenter := Vec2(width / 2.0, height / 2.0);
      scale := 1.0;
      offset := Vec2(width / 2.0, height / 2.0);
      center := Fixed(Vec2(width / 2.0, height / 2.0));
      hover, target := None, None;
    }

    /** Every star the camera names is in the registry. */
    predicate Sees(stars: seq<Star>)
      reads this
    {
      (center.Follows? ==> center.id < |stars|) &&
      (target.Some? ==> target.value < |stars|)
    }

    /** Where `center` currently is. */
    function CenterPoint(stars: seq<Star>): Vec2
      reads this
      requires Sees(stars)
    {
      match center
      case Fixed(p) => p
      case Follows(id) => stars[id].position
    }

    /** project2screen under the current view. */
    function Project(stars: seq<Star>, pos: Vec2): (q: Vec2)
      reads this
      requires Sees(stars)
      ensures pos == CenterPoint(stars) ==> q == offset
    {
      ToScreen(pos, CenterPoint(stars), scale, offset)
    }

    /** center_target: with a target, the view locks on it and puts it in
        the middle of the screen; without one nothing changes. */
    method CenterTarget(stars: seq<Star>)
      requires Sees(stars)
      modifies this
      ensures Sees(stars) && scale == old(scale) && target == old(target) && hover == old(hover)
      ensures old(target) == None ==> center == old(center) && offset == old(offset)
      ensures old(target).Some? ==> center == Follows(target.value) && offset == screenCenter
      ensures old(target).Some? ==> Project(stars, stars[target.value].position) == screenCenter
    {
      if target.Some? {
        center := Follows(target.value);
        offset := screenCenter;
      }
    }

    /** zoom: `scale *= 1 + factor * scale_speed * dt`. */
    method Zoom(dt: real, factor: real)
      modifies this
      ensures scale == old(scale) * (1.0 + factor * ScaleSpeed * dt)
      ensures offset == old(offset) && center == old(center) && target == old(target) && hover == old(hover)
    {
      scale := scale * (1.0 + factor * ScaleSpeed * dt);
    }

    /** keyboard_control: the arrows shift the offset, MINUS and EQUALS
        zoom out and in. */
    method KeyboardControl(dt: real, keys: Keys)
      modifies this
      ensures offset == Add(old(offset), KeyShift(keys, dt))
      ensures scale == old(scale) * (1.0 + KeyZoom(keys) * ScaleSpeed * dt)
      ensures center == old(center) && target == old(target) && hover == old(hover)
    {
      var d := MoveSpeed * dt;
      if keys.up {
        offset := offset.(y := offset.y - d);
      } else if keys.down {
        offset := offset.(y := offset.y + d);
      }
      if keys.left {
        offset := offset.(x := offset.x - d);
      } else if keys.right {
        offset := offset.(x := offset.x + d);
      }
      if keys.minus {
        Zoom(dt, -1.0);
      } else if keys.equals {
        Zoom(dt, 1.0);
      } else {
        assert 1.0 + KeyZoom(keys) * ScaleSpeed * dt == 1.0;
      }
    }

    /** on_click, with mouse_pick's answer `pick`: a picked star becomes
        the target and the view follows it without moving it on screen;
        a click on empty space unlocks the view where it is. */
    method OnClick(pick: Option<nat>, stars: seq<Star>)
      requires Sees(stars) && (pick.Some? ==> pick.value < |stars|)
      modifies this
      ensures Sees(stars) && scale == old(scale) && hover == old(hover)
      ensures pick.Some? ==> target == pick && center == Follows(pick.value)
      ensures pick.Some? ==> Project(stars, stars[pick.value].position) == old(Project(stars, stars[pick.value].position))
      ensures pick == None ==> target == old(target) && offset == old(offset)
      ensures pick == None ==> center == Fixed(old(CenterPoint(stars)))
      ensures pick == None ==> forall pos :: Project(stars, pos) == old(Project(stars, pos))
    {
      if pick.Some? {
        offset := Project(stars, stars[pick.value].position);
        center := Follows(pick.value);
        target := pick;
      } else {
        center := Fixed(CenterPoint(stars));
      }
    }

    /** mouse_push: a mouse in the band along the window's edge pushes the
        view away from that edge. */
    method MousePush(dt: real, mouse: Vec2, norm: Vec2 -> real)
      requires IsNorm(norm)
      modifies this
      ensures offset == Sub(old(offset), Push(mouse, width, height, dt, norm))
      ensures Inside(mouse, width, height) ==> offset == old(offset)
      ensures scale == old(scale) && center == old(center) && target == old(target) && hover == old(hover)
    {
      var movement := Push(mouse, width, height, dt, norm);
      SubZero(offset, movement);
      offset := Sub(offset, movement);
    }

    /** mouse_control: the hovered star is mouse_pick's answer; with a
        button held the view is dragged by the mouse's motion `rel`,
        otherwise the edge of the window pushes it. */
    method MouseControl(dt: real, mouse: Vec2, pick: Option<nat>, pressed: bool, rel: Vec2, norm: Vec2 -> real)
      requires IsNorm(norm)
      modifies this
      ensures hover == pick
      ensures pressed ==> offset == Add(old(offset), rel)
      ensures !pressed ==> offset == Sub(old(offset), Push(mouse, width, height, dt, norm))
      ensures scale == old(scale) && center == old(center) && target == old(target)
    {
      hover := pick;
      if pressed {
        offset := Add(offset, rel);
      } else {
        MousePush(dt, mouse, norm);
      }
    }

    /** update: keyboard first, then mouse. */
    method Update(dt: real, keys: Keys, mouse: Vec2, pick: Option<nat>, pressed: bool, rel: Vec2, norm: Vec2 -> real)
      requires IsNorm(norm)
      modifies this
      ensures hover == pick && center == old(center) && target == old(target)
      ensures scale == old(scale) * (1.0 + KeyZoom(keys) * ScaleSpeed * dt)
      ensures var moved := Add(old(offset), KeyShift(keys, dt));
        offset == if pressed then Add(moved, rel) else Sub(moved, Push(mouse, width, height, dt, norm))
    {
      KeyboardControl(dt, keys);
      MouseControl(dt, mouse, pick, pressed, rel, norm);
    }
  }
}

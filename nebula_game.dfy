/** The game of the nebula simulator (Nebula-Simulator/game.py): the
    speed control, the pause, the spawning of new stars and the updates a
    frame makes at the chosen speed. The window, the event queue, the clock
    and the random draws are parameters. */
module NebulaGame {
  import opened Numbers
  import opened Vectors
  import opened Wrappers
  import opened Pairs
  import opened Stars
  import opened Nebula
  import opened Cameras

  /** `time_speeds`: the simulated seconds per second of each setting. */
  const TimeSpeeds: seq<real> := [0.125, 0.25, 0.5, 1.0, 2.0, 4.0, 8.0]
  /** The speed setting at start, 1x. */
  const StartShift: int := 3
  /** The mass of every star generate makes. */
  const SpawnMass: real := 2000.0

  /** The updates a frame makes at speed `speed`: above 1x, `int(speed / 2)`
      updates of `2 * dt`, otherwise one update of `dt * speed`. */
  function Schedule(speed: real, dt: real): (r: (nat, real))
    ensures speed > 1.0 ==> r.0 == Trunc(speed / 2.0) && r.1 == dt * 2.0
    ensures speed <= 1.0 ==> r.0 == 1 && r.1 == dt * speed
  {
    if speed > 1.0 then (Trunc(speed / 2.0), dt * 2.0) else (1, dt * speed)
  }

  /** At every setting, a frame simulates `speed * dt` seconds in all. */
  lemma ScheduleTotals(k: nat, dt: real)
    requires k < |TimeSpeeds|
    ensures var (n, step) := Schedule(TimeSpeeds[k], dt); n as real * step == TimeSpeeds[k] * dt
  {
    var speed := TimeSpeeds[k];
    if speed > 1.0 {
      assert k == 4 || k == 5 || k == 6;
      assert Trunc(speed / 2.0) as real * 2.0 == speed;
    }
  }

  /** `n` updates of the group, each of `dt`. */
  function Evolve(c: Cluster, n: nat, dt: real, norm: Vec2 -> real): (r: Cluster)
    requires Formed(c) && IsNorm(norm)
    ensures Formed(r) && |r.stars| == |c.stars|
    ensures TotalMass(r) == TotalMass(c)
    decreases n
  {
    if n == 0 then c
    else
      var before := Evolve(c, n - 1, dt, norm);
      SteppedKeepsMass(before, dt, norm);
      Stepped(before, dt, norm)
  }

  /** The random draws of one star of generate: the screen point
      `(x, y)`, the speed and the direction `(cos(angle), sin(angle))`. */
  datatype Spawn = Spawn(x: int, y: int, speed: int, heading: Vec2)

  /** The ranges of the draws in a window of `width` by `height` pixels. */
  predicate SpawnOk(s: Spawn, width: int, height: int)
  {
    5 <= s.x <= width - 5 && 5 <= s.y <= height - 5 && 10 <= s.speed <= 20 &&
    LengthSquared(s.heading) == 1.0
  }

  /** The star generate makes of the draws `s`: placed at the world point
      under the screen point `(x, y)`, moving at `speed`, of mass 2000. */
  function Spawned(s: Spawn, center: Vec2, scale: real, offset: Vec2): Star
    requires scale != 0.0
  {
    NewStar(ToReal(Vec2(s.x as real, s.y as real), center, scale, offset),
            Scale(s.speed as real, s.heading), SpawnMass)
  }

  /** A spawned star appears at the screen point drawn, has mass 2000 and
      a speed between 10 and 20, and is large enough to take part in
      attract. */
  lemma SpawnedStar(s: Spawn, width: int, height: int, center: Vec2, scale: real, offset: Vec2)
    requires SpawnOk(s, width, height) && scale != 0.0
    ensures var t := Spawned(s, center, scale, offset);
      ToScreen(t.position, center, scale, offset) == Vec2(s.x as real, s.y as real) &&
      t.mass == SpawnMass && t.acceleration == Zero && Heavy(t) &&
      100.0 <= LengthSquared(t.velocity) <= 400.0
  {
    var v := s.speed as real;
    LengthSquaredScale(v, s.heading);
    assert 100.0 <= v * v <= 400.0 by {
      assert 10.0 * 10.0 <= v * 10.0 <= v * v;
      assert v * v <= v * 20.0 <= 20.0 * 20.0;
    }
    RadiusGrows(SpawnMass, SpawnMass);
  }

  class Game {
    const width: int
    const height: int
    const camera: Camera
    const nebula: NebulaGroup
    var timeShift: int
    var paused: bool
    var totalNum: nat

    ghost predicate Valid()
      reads this, camera, nebula
    {
      nebula.Valid() && camera.Sees(nebula.stars) &&
      0 <= timeShift < |TimeSpeeds| &&
      camera.width == width as real && camera.height == height as real
    }

    /** `__init__`, then the set-up of `start`: a new group and its first
        star. */
    constructor(width: int, height: int, first: Spawn)
      requires SpawnOk(first, width, height)
      ensures Valid() && fresh(camera) && fresh(nebula)
      ensures timeShift == StartShift && !paused && totalNum == 1
      ensures |nebula.stars| == 1 && nebula.members == [0]
      ensures camera.scale == 1.0 && camera.center == Fixed(camera.screenCenter) && camera.target == None
    {
      this.width, this.height := width, height;
      camera := new Camera(width as real, height as real);
      timeShift := StartShift;
      paused := false;
      totalNum := 0;
      nebula := new NebulaGroup();
      new;
      Generate([first]);
      totalNum := totalNum + 1;
    }

    /** generate: one star per draw, each joining the group. */
    method Generate(spawns: seq<Spawn>)
      requires Valid() && camera.scale != 0.0
      requires forall k :: 0 <= k < |spawns| ==> SpawnOk(spawns[k], width, height)
      modifies nebula
      ensures Valid()
      ensures |nebula.stars| == |old(nebula.stars)| + |spawns|
      ensures nebula.stars[..|old(nebula.stars)|] == old(nebula.stars)
      ensures nebula.members == old(nebula.members) + Range(|old(nebula.stars)|, |nebula.stars|)
      ensures forall k :: 0 <= k < |spawns| ==>
        nebula.stars[|old(nebula.stars)| + k] == Spawned(spawns[k], old(camera.CenterPoint(nebula.stars)), camera.scale, camera.offset)
    {
      ghost var n0, m0 := |nebula.stars|, nebula.members;
      ghost var s0 := nebula.stars;
      ghost var view := camera.CenterPoint(nebula.stars);
      var k := 0;
      while k < |spawns|
        invariant 0 <= k <= |spawns|
        invariant nebula.Valid() && camera.Sees(nebula.stars)
        invariant |nebula.stars| == n0 + k && nebula.stars[..n0] == s0
        invariant camera.CenterPoint(nebula.stars) == view
        invariant nebula.members == m0 + Range(n0, n0 + k)
        invariant forall i :: 0 <= i < k ==> nebula.stars[n0 + i] == Spawned(spawns[i], view, camera.scale, camera.offset)
      {
        ghost var before := nebula.stars;
        SpawnStar(spawns[k]);
        assert nebula.stars == before + [Spawned(spawns[k], view, camera.scale, camera.offset)];
        assert nebula.stars[..n0] == before[..n0];
        assert Range(n0, n0 + k + 1) == Range(n0, n0 + k) + [n0 + k];
        k := k + 1;
      }
    }

    /** One star of generate: the draws become a star at the world point
        under the drawn screen point, and the star joins the group. */
    method SpawnStar(s: Spawn)
      requires Valid() && camera.scale != 0.0 && SpawnOk(s, width, height)
      modifies nebula
      ensures Valid() && camera.CenterPoint(nebula.stars) == old(camera.CenterPoint(nebula.stars))
      ensures nebula.stars == old(nebula.stars) + [Spawned(s, old(camera.CenterPoint(nebula.stars)), camera.scale, camera.offset)]
      ensures nebula.members == old(nebula.members) + [|old(nebula.stars)|]
    {
      var position := ToReal(Vec2(s.x as real, s.y as real), camera.CenterPoint(nebula.stars), camera.scale, camera.offset);
      var velocity := Scale(s.speed as real, s.heading);
      SpawnedStar(s, width, height, camera.CenterPoint(nebula.stars), camera.scale, camera.offset);
      var id := nebula.Add(NewStar(position, velocity, SpawnMass));
    }

    /** time_control: the setting moves by `shift` and saturates at both
        ends of the table. */
    method TimeControl(shift: int)
      requires Valid()
      modifies this
      ensures Valid() && paused == old(paused) && totalNum == old(totalNum)
      ensures 0 <= timeShift < |TimeSpeeds|
      ensures 0 <= old(timeShift) + shift < |TimeSpeeds| ==> timeShift == old(timeShift) + shift
      ensures old(timeShift) + shift < 0 ==> timeShift == 0
      ensures old(timeShift) + shift >= |TimeSpeeds| ==> timeShift == |TimeSpeeds| - 1
    {
      timeShift := timeShift + shift;
      timeShift := ClampInt(timeShift, 0, |TimeSpeeds| - 1);
    }

    /** game_pause: the pause flips, so two calls restore it. */
    method GamePause()
      modifies this
      ensures paused == !old(paused) && timeShift == old(timeShift) && totalNum == old(totalNum)
    {
      paused := !paused;
    }

    /** The updates of one frame: none while paused, otherwise the
        schedule of the current speed; then the count of stars shown. */
    method Advance(dt: real, norm: Vec2 -> real)
      requires Valid() && IsNorm(norm)
      modifies this, nebula
      ensures Valid() && timeShift == old(timeShift) && paused == old(paused)
      ensures paused ==> nebula.State() == old(nebula.State())
      ensures !paused ==> var plan := Schedule(TimeSpeeds[timeShift], dt);
        nebula.State() == Evolve(old(nebula.State()), plan.0, plan.1, norm)
      ensures TotalMass(nebula.State()) == TotalMass(old(nebula.State()))
      ensures totalNum == |nebula.members|
    {
      if !paused {
        var plan := Schedule(TimeSpeeds[timeShift], dt);
        Repeat(plan.0, plan.1, norm);
      }
      totalNum := |nebula.members|;
    }

    /** `for i in range(n): nebula.update(step)`. */
    method Repeat(n: nat, step: real, norm: Vec2 -> real)
      requires nebula.Valid() && IsNorm(norm)
      modifies nebula
      ensures nebula.Valid() && |nebula.stars| == |old(nebula.stars)|
      ensures nebula.State() == Evolve(old(nebula.State()), n, step, norm)
    {
      ghost var c := nebula.State();
      var i := 0;
      while i < n
        invariant 0 <= i <= n && nebula.Valid()
        invariant nebula.State() == Evolve(c, i, step, norm)
      {
        nebula.Update(step, norm);
        i := i + 1;
      }
    }
  }
}

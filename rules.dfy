/** The rules of a run as values: the whole game state is a `World`, and every
    phase of one animation tick is a function from World to World. The
    `Game` class runs these phases in place and is proved to agree with them;
    the properties of the game are proved here, once, about the functions. */
module Rules {
  import opened Rng
  import opened Geometry

  datatype ObstacleKind = Box | Tall
  datatype PowerKind = ShieldPower | SlowPower

  /** An obstacle standing on the ground: left edge `x`, width `w`, height `h`. */
  datatype Obstacle = Obstacle(x: real, w: int, h: int, kind: ObstacleKind)

  /** A round power-up centred at (`x`, `y`) with radius `r`. */
  datatype PowerUp = PowerUp(x: real, y: real, r: real, kind: PowerKind)

  /** The mutable part of the player; its left edge, width and height are fixed. */
  datatype Player = Player(y: real, vy: real, charging: bool, jumpPower: real)

  /** The canvas size; the ground line is 40 pixels above the bottom edge. */
  datatype Canvas = Canvas(width: int, height: int)
  {
    function Ground(): real { (height - 40) as real }
    function Right(): real { width as real }
  }

  const PlayerX: real := 90.0
  const PlayerW: real := 28.0
  const PlayerH: real := 28.0
  const StartSpeed: real := 5.0
  const StartGravity: real := 0.6
  const MaxGravity: real := 1.0
  const SpeedStep: real := 0.0009
  const ShieldTicks: int := 600
  const SlowTicks: int := 360
  const OffScreen: real := -9999.0
  const OpeningObstacles: nat := 6

  /** Everything one tick reads and writes: the counters, the difficulty, the
      shield and slow-motion countdowns, the player, both entity lists and the
      run's generator, recorded as the state it was seeded with (`origin`)
      and the number of draws made since (`drawn`). */
  datatype World = World(t: int, score: real, best: int, speed: real, gravity: real,
                         shield: int, slowmo: int, alive: bool, player: Player,
                         obs: seq<Obstacle>, pows: seq<PowerUp>, origin: bv32, drawn: nat)
  {
    /** The number the `i`-th next draw returns, counting from 1: `Drawn(1)`
        is the next draw, and `Drawn(0)` the one already made (or, before any
        draw, the seeded state, which the generator never returns). */
    function Drawn(i: nat): (r: real)
      ensures 0.0 <= r < 1.0
    { DrawAt(origin, drawn + i) }
  }

  function MinReal(a: real, b: real): real { if a <= b then a else b }
  function MaxInt(a: int, b: int): int { if a >= b then a else b }

  // ----- spawning -----

  /** The dimensions every spawned obstacle has. */
  predicate WellSized(o: Obstacle)
  {
    20 <= o.w <= 43 && 20 <= o.h <= 59
  }

  /** The shape every spawned power-up has: it floats 60 above the ground with radius 10. */
  predicate PowerUpShape(c: Canvas, p: PowerUp)
  {
    p.y == c.Ground() - 60.0 && p.r == 10.0
  }

  /** The obstacle shaped by the draws `d1` (width), `d2` (height), `d3`
      (kind) and `d4` (position): `20 + floor(24 * draw)` wide,
      `20 + floor(40 * draw)` tall, tall with chance 0.15, and placed up to 80
      pixels beyond the right edge. */
  function NewObstacle(c: Canvas, d1: real, d2: real, d3: real, d4: real): (o: Obstacle)
    requires 0.0 <= d1 < 1.0 && 0.0 <= d2 < 1.0 && 0.0 <= d4 < 1.0
    ensures WellSized(o)
    ensures c.Right() <= o.x < c.Right() + 80.0
    ensures o.kind == Tall <==> d3 < 0.15
  {
    Obstacle(c.Right() + d4 * 80.0, 20 + (d1 * 24.0).Floor, 20 + (d2 * 40.0).Floor,
             if d3 < 0.15 then Tall else Box)
  }

  /** The power-up shaped by the draws `d6` (kind, even odds) and `d7`
      (position, 40 to 160 pixels beyond the right edge). */
  function NewPowerUp(c: Canvas, d6: real, d7: real): (p: PowerUp)
    requires 0.0 <= d7 < 1.0
    ensures PowerUpShape(c, p)
    ensures c.Right() + 40.0 <= p.x < c.Right() + 160.0
    ensures p.kind == ShieldPower <==> d6 < 0.5
  {
    PowerUp(c.Right() + 40.0 + d7 * 120.0, c.Ground() - 60.0, 10.0,
            if d6 < 0.5 then ShieldPower else SlowPower)
  }

  /** One obstacle spawn: five draws (width, height, kind, position, power-up
      roll) and two more (kind, position) when a power-up comes along, which
      happens with chance 0.18. */
  function Spawn(c: Canvas, w: World): (r: World)
    ensures |r.obs| == |w.obs| + 1 && r.obs[..|w.obs|] == w.obs
    ensures WellSized(r.obs[|w.obs|])
    ensures c.Right() <= r.obs[|w.obs|].x < c.Right() + 80.0
    ensures |w.pows| <= |r.pows| <= |w.pows| + 1 && r.pows[..|w.pows|] == w.pows
    ensures |r.pows| == |w.pows| + 1 <==> w.Drawn(5) < 0.18
    ensures |r.pows| == |w.pows| + 1 ==>
              PowerUpShape(c, r.pows[|w.pows|]) &&
              c.Right() + 40.0 <= r.pows[|w.pows|].x < c.Right() + 160.0
    ensures r.drawn == w.drawn + (if |r.pows| == |w.pows| then 5 else 7)
    ensures r == w.(obs := r.obs, pows := r.pows, drawn := r.drawn)
  {
    PowerUpSpawn(c, ObstacleSpawn(c, w))
  }

  /** The obstacle part of a spawn: four draws shape a new obstacle at the
      end of the list. */
  function ObstacleSpawn(c: Canvas, w: World): World
  {
    w.(obs := w.obs + [NewObstacle(c, w.Drawn(1), w.Drawn(2), w.Drawn(3), w.Drawn(4))], drawn := w.drawn + 4)
  }

  /** The power-up part of a spawn: one roll and, with chance 0.18, two
      draws that shape a new power-up at the end of the list. */
  function PowerUpSpawn(c: Canvas, w: World): World
  {
    if w.Drawn(1) < 0.18 then
      w.(pows := w.pows + [NewPowerUp(c, w.Drawn(2), w.Drawn(3))], drawn := w.drawn + 3)
    else
      w.(drawn := w.drawn + 1)
  }

  /** `n` spawns in a row, as the opening of a run does. */
  function SpawnTimes(c: Canvas, w: World, n: nat): World
    decreases n, w, 1
  {
    if n == 0 then w else SpawnMore(c, w, n)
  }

  /** A spawn, then `n - 1` more. */
  function SpawnMore(c: Canvas, w: World, n: nat): World
    requires n > 0
    decreases n, w, 0
  {
    SpawnTimes(c, Spawn(c, w), n - 1)
  }

  /** Spawning once more at the end is the same as spawning once more first. */
  lemma {:induction false} SpawnTimesLast(c: Canvas, w: World, n: nat)
    ensures SpawnTimes(c, w, n + 1) == Spawn(c, SpawnTimes(c, w, n))
    decreases n
  {
    if n > 0 {
      SpawnTimesLast(c, Spawn(c, w), n - 1);
    } else {
      assert SpawnTimes(c, w, 1) == SpawnMore(c, w, 1) == SpawnTimes(c, Spawn(c, w), 0);
    }
  }

  /** The shapes every spawn gives: obstacles well sized, power-ups well shaped. */
  ghost predicate Spawnable(c: Canvas, w: World)
  {
    && (forall o | o in w.obs :: WellSized(o))
    && (forall p | p in w.pows :: PowerUpShape(c, p))
  }

  /** A spawn keeps every obstacle well sized and every power-up well shaped. */
  lemma SpawnKeepsShapes(c: Canvas, w: World)
    requires Spawnable(c, w)
    ensures Spawnable(c, Spawn(c, w))
  {
    var r := Spawn(c, w);
    assert r.obs == w.obs + [r.obs[|w.obs|]];
    if |r.pows| > |w.pows| {
      assert r.pows == w.pows + [r.pows[|w.pows|]];
    } else {
      assert r.pows == w.pows;
    }
  }

  /** Spawning `n` times adds exactly `n` obstacles and at most `n` power-ups
      after the existing ones, keeps the world spawnable and changes nothing
      but the two lists and the generator. */
  lemma {:induction false} SpawnTimesAdds(c: Canvas, w: World, n: nat)
    requires Spawnable(c, w)
    ensures var r := SpawnTimes(c, w, n);
      && |r.obs| == |w.obs| + n && |w.pows| <= |r.pows| <= |w.pows| + n
      && r.obs[..|w.obs|] == w.obs && r.pows[..|w.pows|] == w.pows
      && 5 * n <= r.drawn - w.drawn <= 7 * n
      && Spawnable(c, r)
      && r == w.(obs := r.obs, pows := r.pows, drawn := r.drawn)
    decreases n
  {
    if n > 0 {
      var v := Spawn(c, w);
      SpawnKeepsShapes(c, w);
      SpawnTimesAdds(c, v, n - 1);
      var r := SpawnTimes(c, v, n - 1);
      assert r.obs[..|w.obs|] == r.obs[..|v.obs|][..|w.obs|];
      assert r.pows[..|w.pows|] == r.pows[..|v.pows|][..|w.pows|];
    }
  }

  // ----- one tick -----

  /** The spawn window `floor(50 + 60 * draw)`: between 50 and 109 ticks. */
  function Window(draw: real): (k: int)
    requires 0.0 <= draw < 1.0
    ensures 50 <= k <= 109
  {
    (50.0 + 60.0 * draw).Floor
  }

  /** Difficulty and slow-motion countdown: the tick counter and speed grow,
      gravity follows `0.6 + min(t / 6000, 0.4)`. */
  function Tick(w: World): World
  {
    var t := w.t + 1;
    w.(t := t, speed := w.speed + SpeedStep,
       gravity := StartGravity + MinReal(t as real / 6000.0, 0.4),
       slowmo := if w.slowmo > 0 then w.slowmo - 1 else w.slowmo)
  }

  /** How far entities move this tick, judged from the world before `Tick`:
      the new speed, cut to 60% while slow motion is still running. */
  function EffectiveSpeed(w: World): real
  {
    var s := w.speed + SpeedStep;
    if w.slowmo > 0 then s * 0.6 else s
  }

  /** Charge while grounded, fall by gravity, and land on the ground. */
  function Fall(c: Canvas, p: Player, gravity: real): (q: Player)
    ensures q.y <= c.Ground()
    ensures q.charging == p.charging
    ensures p.charging && p.y >= c.Ground() ==> q.jumpPower == p.jumpPower + 0.9
    ensures !(p.charging && p.y >= c.Ground()) ==> q.jumpPower == p.jumpPower
    ensures p.y + p.vy + gravity > c.Ground() ==> q.y == c.Ground() && q.vy == 0.0
    ensures p.y + p.vy + gravity <= c.Ground() ==> q.vy == p.vy + gravity && q.y == p.y + q.vy
  {
    var jp := if p.charging && p.y >= c.Ground() then p.jumpPower + 0.9 else p.jumpPower;
    var vy := p.vy + gravity;
    var y := p.y + vy;
    if y > c.Ground() then Player(c.Ground(), 0.0, p.charging, jp) else Player(y, vy, p.charging, jp)
  }

  /** The cadence draw, and a spawn when the tick counter is a multiple of its window. */
  function Cadence(c: Canvas, w: World): World
  {
    var w1 := w.(drawn := w.drawn + 1);
    if w.t % Window(w.Drawn(1)) == 0 then Spawn(c, w1) else w1
  }

  /** Still on screen: the right edge has not passed the left border. */
  predicate Visible(o: Obstacle) { o.x + o.w as real >= 0.0 }

  /** Every obstacle moved left by `d`, none dropped. */
  function Shifted(os: seq<Obstacle>, d: real): (r: seq<Obstacle>)
    ensures |r| == |os|
    ensures forall i | 0 <= i < |os| :: r[i] == os[i].(x := os[i].x - d)
  {
    seq(|os|, i requires 0 <= i < |os| => os[i].(x := os[i].x - d))
  }

  /** The obstacle move loop: each obstacle moves left by `d` and is dropped
      once it has left the screen; the order of the rest is kept. */
  function Moved(os: seq<Obstacle>, d: real): (r: seq<Obstacle>)
    ensures |r| <= |os|
    ensures forall o | o in r :: Visible(o)
    decreases |os|
  {
    if os == [] then []
    else
      var o := os[0].(x := os[0].x - d);
      var rest := Moved(os[1..], d);
      if Visible(o) then [o] + rest else rest
  }

  /** The move loop's turn at index `i` of `os`. */
  lemma MovedAt(os: seq<Obstacle>, i: nat, d: real)
    requires i < |os|
    ensures var o := os[i].(x := os[i].x - d);
      Moved(os[i..], d) == if Visible(o) then [o] + Moved(os[i + 1..], d) else Moved(os[i + 1..], d)
  {
    assert os[i..][1..] == os[i + 1..];
  }

  /** The move loop keeps exactly the moved obstacles that are still visible. */
  lemma {:induction false} MovedKeepsExactlyVisible(os: seq<Obstacle>, d: real)
    ensures forall o :: o in Moved(os, d) <==> o in Shifted(os, d) && Visible(o)
    decreases |os|
  {
    if os != [] {
      MovedKeepsExactlyVisible(os[1..], d);
      assert Shifted(os, d) == [os[0].(x := os[0].x - d)] + Shifted(os[1..], d);
    }
  }

  /** The power-up pickup box test against the player standing at height `py`. */
  predicate Touches(py: real, p: PowerUp)
  {
    RectsOverlap(PlayerX, py - PlayerH, PlayerW, PlayerH, p.x - p.r, p.y - p.r, p.r * 2.0, p.r * 2.0)
  }

  /** A power-up that, moved by `d`, is still on screen and under the player. */
  predicate PickedUp(p: PowerUp, d: real, py: real)
  {
    var q := p.(x := p.x - d);
    q.x + q.r >= 0.0 && Touches(py, q)
  }

  /** What the power-up loop leaves: the power-ups kept, and whether a shield
      or a slow-motion power-up was picked up. */
  datatype Sweep = Sweep(kept: seq<PowerUp>, gotShield: bool, gotSlow: bool)

  /** The power-up loop: move left by `d`, drop what left the screen, pick up
      (and drop) what the player touches. */
  function Swept(ps: seq<PowerUp>, d: real, py: real): (s: Sweep)
    ensures |s.kept| <= |ps|
    decreases |ps|
  {
    if ps == [] then Sweep([], false, false)
    else Sift(ps[0].(x := ps[0].x - d), Swept(ps[1..], d, py), py)
  }

  /** One turn of the power-up loop on the already moved power-up `p`, in
      front of what the loop has done to the power-ups behind it. */
  function Sift(p: PowerUp, rest: Sweep, py: real): Sweep
  {
    if p.x + p.r < 0.0 then rest
    else if Touches(py, p) then
      if p.kind == ShieldPower then rest.(gotShield := true) else rest.(gotSlow := true)
    else rest.(kept := [p] + rest.kept)
  }

  /** The loop's turn at index `i` of `ps`. */
  lemma SweptAt(ps: seq<PowerUp>, i: nat, d: real, py: real)
    requires i < |ps|
    ensures Swept(ps[i..], d, py) == Sift(ps[i].(x := ps[i].x - d), Swept(ps[i + 1..], d, py), py)
  {
    assert ps[i..][1..] == ps[i + 1..];
  }

  /** Whether a sweep starts the countdown of kind `k`: the shield or the slow motion. */
  function Granted(s: Sweep, k: PowerKind): bool
  {
    if k == ShieldPower then s.gotShield else s.gotSlow
  }

  /** The shield (the slow motion) is started exactly when some power-up of
      that kind is picked up this tick. */
  lemma {:induction false} SweptPicksUpExactly(ps: seq<PowerUp>, d: real, py: real, k: PowerKind)
    ensures Granted(Swept(ps, d, py), k) <==>
      exists i | 0 <= i < |ps| :: PickedUp(ps[i], d, py) && ps[i].kind == k
    decreases |ps|
  {
    if ps != [] {
      var rest := ps[1..];
      SweptPicksUpExactly(rest, d, py, k);
      if Granted(Swept(ps, d, py), k) {
        if Granted(Swept(rest, d, py), k) {
          var j :| 0 <= j < |rest| && PickedUp(rest[j], d, py) && rest[j].kind == k;
          assert ps[j + 1] == rest[j];
        } else {
          assert PickedUp(ps[0], d, py) && ps[0].kind == k;
        }
      }
      if exists i | 0 <= i < |ps| :: PickedUp(ps[i], d, py) && ps[i].kind == k {
        var i :| 0 <= i < |ps| && PickedUp(ps[i], d, py) && ps[i].kind == k;
        if i > 0 {
          assert rest[i - 1] == ps[i];
        }
      }
    }
  }

  /** Every power-up the loop keeps is still on screen and out of the player's reach. */
  lemma {:induction false} SweptKeepsUntouched(ps: seq<PowerUp>, d: real, py: real)
    ensures forall p | p in Swept(ps, d, py).kept :: p.x + p.r >= 0.0 && !Touches(py, p)
    decreases |ps|
  {
    if ps != [] {
      SweptKeepsUntouched(ps[1..], d, py);
    }
  }

  /** Conversely, every power-up whose moved copy is still on screen and out of
      the player's reach is kept: the loop drops only what left the screen or
      was picked up. */
  lemma {:induction false} SweptKeepsEveryUntouched(ps: seq<PowerUp>, d: real, py: real)
    ensures forall p | p in ps ::
      (var q := p.(x := p.x - d); q.x + q.r >= 0.0 && !Touches(py, q)) ==> p.(x := p.x - d) in Swept(ps, d, py).kept
    decreases |ps|
  {
    if ps != [] {
      SweptKeepsEveryUntouched(ps[1..], d, py);
      forall p | p in ps && p != ps[0]
        ensures p in ps[1..]
      {
        assert ps == [ps[0]] + ps[1..];
      }
    }
  }

  /** Every power-up the loop keeps is one of the list moved left by `d`, so
      it keeps its height, radius and kind. */
  lemma {:induction false} SweptKeepsMovedOnes(ps: seq<PowerUp>, d: real, py: real)
    ensures forall q | q in Swept(ps, d, py).kept :: exists p | p in ps :: q == p.(x := p.x - d)
    decreases |ps|
  {
    if ps != [] {
      SweptKeepsMovedOnes(ps[1..], d, py);
      forall q | q in Swept(ps[1..], d, py).kept
        ensures exists p | p in ps :: q == p.(x := p.x - d)
      {
        var p :| p in ps[1..] && q == p.(x := p.x - d);
        assert p in ps;
      }
    }
  }

  /** Both move loops and the pickups they trigger. */
  function MovePhase(w: World, d: real): World
  {
    var s := Swept(w.pows, d, w.player.y);
    w.(obs := Moved(w.obs, d), pows := s.kept,
       shield := if s.gotShield then ShieldTicks else w.shield,
       slowmo := if s.gotSlow then SlowTicks else w.slowmo)
  }

  /** The obstacle hit test against the player standing at height `py`. */
  predicate Hits(c: Canvas, py: real, o: Obstacle)
  {
    RectsOverlap(PlayerX, py - PlayerH, PlayerW, PlayerH,
                 o.x, c.Ground() - o.h as real, o.w as real, o.h as real)
  }

  /** How many obstacles of `os` the player standing at height `py` hits. */
  function HitCount(c: Canvas, os: seq<Obstacle>, py: real): nat
    decreases |os|
  {
    if os == [] then 0 else (if Hits(c, py, os[0]) then 1 else 0) + HitCount(c, os[1..], py)
  }

  /** What the collision loop leaves: the obstacles, the shield, and whether the run lives. */
  datatype Clash = Clash(obs: seq<Obstacle>, shield: int, alive: bool)

  /** The collision loop, front to back: a hit with shield left uses the shield
      up and moves that obstacle off screen; a hit without shield ends the run. */
  function Collided(c: Canvas, os: seq<Obstacle>, py: real, shield: int, alive: bool): (r: Clash)
    ensures |r.obs| == |os|
    decreases |os|
  {
    if os == [] then Clash([], shield, alive)
    else
      var first := CollideOne(c, py, os[0], shield, alive);
      var rest := Collided(c, os[1..], py, first.shield, first.alive);
      Clash(first.obs + rest.obs, rest.shield, rest.alive)
  }

  /** The collision loop's turn at index `i`, applied in place to the
      obstacles, shield and liveness in `k`. */
  function CollideTurn(c: Canvas, py: real, k: Clash, i: nat): (r: Clash)
    requires i < |k.obs|
    ensures |r.obs| == |k.obs|
  {
    var one := CollideOne(c, py, k.obs[i], k.shield, k.alive);
    Clash(k.obs[i := one.obs[0]], one.shield, one.alive)
  }

  /** The collision loop after its first `i` turns. */
  function CollideUpTo(c: Canvas, py: real, k: Clash, i: nat): (r: Clash)
    requires i <= |k.obs|
    ensures |r.obs| == |k.obs|
    decreases i
  {
    if i == 0 then k else CollideTurn(c, py, CollideUpTo(c, py, k, i - 1), i - 1)
  }

  /** The loop's first `i` turns leave the obstacles from `i` on alone. */
  lemma {:induction false} CollideUpToKeepsRest(c: Canvas, py: real, k: Clash, i: nat)
    requires i <= |k.obs|
    ensures CollideUpTo(c, py, k, i).obs[i..] == k.obs[i..]
    decreases i
  {
    if i > 0 {
      CollideUpToKeepsRest(c, py, k, i - 1);
      var m0 := CollideUpTo(c, py, k, i - 1);
      assert m0.obs[i..] == m0.obs[i - 1..][1..];
    }
  }

  /** Collided, unfolded at index `i` of `os`. */
  lemma CollidedAt(c: Canvas, os: seq<Obstacle>, i: nat, py: real, shield: int, alive: bool)
    requires i < |os|
    ensures var first := CollideOne(c, py, os[i], shield, alive);
      var rest := Collided(c, os[i + 1..], py, first.shield, first.alive);
      Collided(c, os[i..], py, shield, alive) == Clash(first.obs + rest.obs, rest.shield, rest.alive)
  {
    assert os[i..][1..] == os[i + 1..];
  }

  /** Updating index `n` and cutting after it. */
  lemma PrefixAfterUpdate<T>(s: seq<T>, n: nat, v: T)
    requires n < |s|
    ensures s[n := v][..n + 1] == s[..n] + [v]
  {
  }

  /** Concatenation regroups. */
  lemma ConcatAssoc<T>(a: seq<T>, b: seq<T>, c: seq<T>)
    ensures a + (b + c) == (a + b) + c
  {
  }

  /** Turn by turn, the loop computes what `Collided` describes: after `i`
      turns the first `i` obstacles are settled, and what is left to do is
      `Collided` on the rest. */
  lemma {:induction false} CollideUpToAgrees(c: Canvas, py: real, k: Clash, i: nat)
    requires i <= |k.obs|
    ensures var m := CollideUpTo(c, py, k, i);
      var rest := Collided(c, k.obs[i..], py, m.shield, m.alive);
      Collided(c, k.obs, py, k.shield, k.alive) == Clash(m.obs[..i] + rest.obs, rest.shield, rest.alive)
    decreases i
  {
    if i > 0 {
      var n := i - 1;
      CollideUpToAgrees(c, py, k, n);
      CollideUpToKeepsRest(c, py, k, n);
      var m0 := CollideUpTo(c, py, k, n);
      assert m0.obs[n] == k.obs[n] by {
        assert m0.obs[n] == m0.obs[n..][0];
      }
      CollidedAt(c, k.obs, n, py, m0.shield, m0.alive);
      var one := CollideOne(c, py, k.obs[n], m0.shield, m0.alive);
      var rest := Collided(c, k.obs[i..], py, one.shield, one.alive);
      PrefixAfterUpdate(m0.obs, n, one.obs[0]);
      assert one.obs == [one.obs[0]];
      ConcatAssoc(m0.obs[..n], one.obs, rest.obs);
    } else {
      assert k.obs[0..] == k.obs;
    }
  }

  /** The whole loop: all turns taken, the result is `Collided`. */
  lemma CollideUpToAll(c: Canvas, py: real, k: Clash)
    ensures CollideUpTo(c, py, k, |k.obs|) == Collided(c, k.obs, py, k.shield, k.alive)
  {
    CollideUpToAgrees(c, py, k, |k.obs|);
    var m := CollideUpTo(c, py, k, |k.obs|);
    assert m.obs[..|k.obs|] == m.obs;
  }

  /** The collision loop's body for one obstacle `o`. */
  function CollideOne(c: Canvas, py: real, o: Obstacle, shield: int, alive: bool): (r: Clash)
    ensures |r.obs| == 1
  {
    if !Hits(c, py, o) then Clash([o], shield, alive)
    else if shield > 0 then Clash([o.(x := OffScreen)], 0, alive)
    else Clash([o], shield, false)
  }

  /** The outcome of the collision loop in terms of the number of hits: a
      shield absorbs exactly one hit, any further hit ends the run, and the
      only obstacles that change are hit ones, moved off screen. */
  lemma {:induction false} CollisionOutcome(c: Canvas, os: seq<Obstacle>, py: real, shield: int, alive: bool)
    ensures var r := Collided(c, os, py, shield, alive);
      r.alive == (alive && HitCount(c, os, py) <= (if shield > 0 then 1 else 0)) &&
      r.shield == (if shield > 0 && HitCount(c, os, py) > 0 then 0 else shield) &&
      forall i | 0 <= i < |os| ::
        r.obs[i] == os[i] || (Hits(c, py, os[i]) && r.obs[i] == os[i].(x := OffScreen))
    decreases |os|
  {
    if os != [] {
      var first := CollideOne(c, py, os[0], shield, alive);
      CollisionOutcome(c, os[1..], py, first.shield, first.alive);
      var rest := Collided(c, os[1..], py, first.shield, first.alive);
      var r := Collided(c, os, py, shield, alive);
      assert r.obs == first.obs + rest.obs;
      forall i | 1 <= i < |os|
        ensures r.obs[i] == os[i] || (Hits(c, py, os[i]) && r.obs[i] == os[i].(x := OffScreen))
      {
        assert r.obs[i] == rest.obs[i - 1] && os[i] == os[1..][i - 1];
      }
    }
  }

  /** With a shield up, a single hit is absorbed: the run goes on, the shield
      is spent, and the obstacle that was hit is moved off screen. */
  lemma ShieldAbsorbsOneHit(c: Canvas, os: seq<Obstacle>, py: real, shield: int, j: nat)
    requires shield > 0 && j < |os| && Hits(c, py, os[j]) && HitCount(c, os, py) == 1
    ensures var r := Collided(c, os, py, shield, true);
      r.alive && r.shield == 0 && r.obs[j].x == OffScreen
  {
    CollisionOutcome(c, os, py, shield, true);
    OnlyHitIsNeutralised(c, os, py, shield, true, j);
  }

  /** With a shield up and a single hit, the obstacle hit is the one moved off screen. */
  lemma {:induction false} OnlyHitIsNeutralised(c: Canvas, os: seq<Obstacle>, py: real, shield: int, alive: bool, j: nat)
    requires shield > 0 && j < |os| && Hits(c, py, os[j]) && HitCount(c, os, py) == 1
    ensures Collided(c, os, py, shield, alive).obs[j].x == OffScreen
    decreases |os|
  {
    if j == 0 {
    } else {
      assert os[1..][j - 1] == os[j];
      if Hits(c, py, os[0]) {
        HitCountPositive(c, os[1..], py, j - 1);
        assert false;
      } else {
        OnlyHitIsNeutralised(c, os[1..], py, shield, alive, j - 1);
      }
    }
  }

  /** An obstacle that is hit counts. */
  lemma {:induction false} HitCountPositive(c: Canvas, os: seq<Obstacle>, py: real, j: nat)
    requires j < |os| && Hits(c, py, os[j])
    ensures HitCount(c, os, py) > 0
    decreases |os|
  {
    if j > 0 {
      assert os[1..][j - 1] == os[j];
      HitCountPositive(c, os[1..], py, j - 1);
    }
  }

  /** Without a shield, any hit ends the run. */
  lemma UnshieldedHitEndsRun(c: Canvas, os: seq<Obstacle>, py: real, j: nat)
    requires j < |os| && Hits(c, py, os[j])
    ensures !Collided(c, os, py, 0, true).alive
  {
    HitCountPositive(c, os, py, j);
    CollisionOutcome(c, os, py, 0, true);
  }

  /** The player's part of a tick, under the gravity of this tick. */
  function PlayerPhase(c: Canvas, w: World): World
  {
    w.(player := Fall(c, w.player, w.gravity))
  }

  /** The shield counts down by one each tick while it lasts. */
  function ShieldPhase(w: World): World
  {
    w.(shield := if w.shield > 0 then w.shield - 1 else w.shield)
  }

  /** The collision loop applied to the world. */
  function CollidePhase(c: Canvas, w: World): World
  {
    var k := Collided(c, w.obs, w.player.y, w.shield, w.alive);
    w.(obs := k.obs, shield := k.shield, alive := k.alive)
  }

  /** Score one point, half a point in slow motion, and keep the best whole score. */
  function Scored(w: World): World
  {
    var score := w.score + (if w.slowmo != 0 then 0.5 else 1.0);
    w.(score := score, best := MaxInt(w.best, score.Floor))
  }

  /** The first half of a live tick: the difficulty curve, the player, the
      spawn cadence and both move loops. */
  function MotionPhase(c: Canvas, w: World): World
  {
    MovePhase(Cadence(c, PlayerPhase(c, Tick(w))), EffectiveSpeed(w))
  }

  /** The second half of a live tick: the shield countdown, the collision
      loop and the score. */
  function SettlePhase(c: Canvas, w: World): World
  {
    Scored(CollidePhase(c, ShieldPhase(w)))
  }

  /** One call of the per-frame update. A finished run does not change; a live
      one goes through every phase in the order the update runs them. */
  function StepWorld(c: Canvas, w: World): World
  {
    if !w.alive then w else SettlePhase(c, MotionPhase(c, w))
  }

  /** What holds of the world between ticks, from the first frame on. */
  ghost predicate Inv(c: Canvas, w: World)
  {
    && 0 <= w.shield <= ShieldTicks && 0 <= w.slowmo <= SlowTicks && w.t >= 0
    && StartSpeed <= w.speed && StartGravity <= w.gravity <= MaxGravity
    && 0.0 <= w.score && w.score.Floor <= w.best
    && w.player.y <= c.Ground() && w.player.jumpPower >= 0.0
    && (w.alive ==> w.origin != 0)
    && (forall o | o in w.obs :: WellSized(o))
    && (forall p | p in w.pows :: PowerUpShape(c, p))
  }

  /** The world before any run: gated, with the player on the ground. */
  function Initial(c: Canvas): (w: World)
    ensures Inv(c, w) && !w.alive
  {
    World(0, 0.0, 0, StartSpeed, StartGravity, 0, 0, false,
          Player(c.Ground(), 0.0, false, 0.0), [], [], 0, 0)
  }

  /** A tick of a finished run changes nothing. */
  lemma DeadStepUnchanged(c: Canvas, w: World)
    requires !w.alive
    ensures StepWorld(c, w) == w
  {
  }

  /** Every tick keeps the invariant. */
  lemma StepPreservesInv(c: Canvas, w: World)
    requires Inv(c, w)
    ensures Inv(c, StepWorld(c, w))
  {
    if w.alive {
      LiveStep(c, w);
    }
  }

  /** The cadence draw spawns exactly when the tick counter is a multiple of
      the window, keeps the shapes, and touches nothing but the lists and the
      generator. */
  lemma CadenceKeepsShapes(c: Canvas, w: World)
    requires Spawnable(c, w)
    ensures var r := Cadence(c, w);
      && Spawnable(c, r)
      && (|r.obs| == |w.obs| + 1 <==> w.t % Window(w.Drawn(1)) == 0)
      && r.drawn > w.drawn
      && r == w.(obs := r.obs, pows := r.pows, drawn := r.drawn)
  {
    SpawnKeepsShapes(c, w.(drawn := w.drawn + 1));
  }

  /** The move phase leaves only obstacles still on screen and power-ups
      still on screen, keeps their shapes, and restarts a countdown only when
      a power-up of its kind is picked up. */
  lemma MovePhaseKeeps(c: Canvas, w: World, d: real)
    requires Spawnable(c, w)
    ensures var r := MovePhase(w, d);
      && Spawnable(c, r)
      && (forall o | o in r.obs :: Visible(o))
      && (forall p | p in r.pows :: p.x + p.r >= 0.0)
      && (r.shield == ShieldTicks || r.shield == w.shield)
      && (r.slowmo == SlowTicks || r.slowmo == w.slowmo)
  {
    MovedKeepsExactlyVisible(w.obs, d);
    SweptKeepsMovedOnes(w.pows, d, w.player.y);
    SweptKeepsUntouched(w.pows, d, w.player.y);
    var moved := Shifted(w.obs, d);
    forall o | o in Moved(w.obs, d)
      ensures WellSized(o)
    {
      var i :| 0 <= i < |moved| && moved[i] == o;
      assert w.obs[i] in w.obs;
    }
  }

  /** After the collision loop every obstacle is still well sized, and each
      is either still on screen or was hit and moved off screen. */
  lemma CollidedKeepsShapes(c: Canvas, os: seq<Obstacle>, py: real, shield: int, alive: bool)
    requires forall o | o in os :: WellSized(o) && Visible(o)
    ensures forall o | o in Collided(c, os, py, shield, alive).obs ::
      WellSized(o) && (Visible(o) || o.x == OffScreen)
  {
    CollisionOutcome(c, os, py, shield, alive);
    var k := Collided(c, os, py, shield, alive);
    forall o | o in k.obs
      ensures WellSized(o) && (Visible(o) || o.x == OffScreen)
    {
      var i :| 0 <= i < |k.obs| && k.obs[i] == o;
      assert os[i] in os;
    }
  }

  /** What one live tick does, as the update promises it. */
  lemma LiveStep(c: Canvas, w: World)
    requires Inv(c, w) && w.alive
    ensures var r := StepWorld(c, w);
      && Inv(c, r)
      && r.t == w.t + 1
      && r.speed == w.speed + SpeedStep
      && StartGravity < r.gravity <= MaxGravity
      && r.score == w.score + (if r.slowmo != 0 then 0.5 else 1.0)
      && r.best == MaxInt(w.best, r.score.Floor)
      && (w.player.y + w.player.vy + r.gravity > c.Ground() ==> r.player.y == c.Ground() && r.player.vy == 0.0)
      && (forall o | o in r.obs :: Visible(o) || o.x == OffScreen)
      && (forall p | p in r.pows :: p.x + p.r >= 0.0)
  {
    var d := EffectiveSpeed(w);
    var w2 := PlayerPhase(c, Tick(w));
    CadenceKeepsShapes(c, w2);
    var w3 := Cadence(c, w2);
    MovePhaseKeeps(c, w3, d);
    var w5 := ShieldPhase(MovePhase(w3, d));
    CollidedKeepsShapes(c, w5.obs, w5.player.y, w5.shield, w5.alive);
    CollisionOutcome(c, w5.obs, w5.player.y, w5.shield, w5.alive);
  }

  /** Score and best never go down, whether the run is live or over. */
  lemma ScoreNeverDecreases(c: Canvas, w: World)
    requires Inv(c, w)
    ensures StepWorld(c, w).score >= w.score
    ensures StepWorld(c, w).best >= w.best
  {
    if w.alive {
      LiveStep(c, w);
    }
  }

  /** The opening of a run: fresh counters and difficulty, empty lists, the
      generator seeded from `seed`, then six spawns. Best and the player are
      left as they were. */
  function StartRun(c: Canvas, w: World, seed: nat): World
  {
    SpawnTimes(c, ResetRun(w, seed), OpeningObstacles)
  }

  /** The reset at the start of a run: fresh counters and difficulty, empty
      lists and a generator seeded from `seed`. */
  function ResetRun(w: World, seed: nat): World
  {
    w.(t := 0, alive := true, score := 0.0, speed := StartSpeed,
       gravity := StartGravity, shield := 0, slowmo := 0,
       obs := [], pows := [], origin := InitialState(seed), drawn := 0)
  }

  /** A new run starts live with exactly six obstacles and at most six
      power-ups, all counters reset, best and the player untouched, and the
      invariant holds. */
  lemma StartRunResets(c: Canvas, w: World, seed: nat)
    requires Inv(c, w)
    ensures var r := StartRun(c, w, seed);
      && Inv(c, r) && r.alive
      && r.t == 0 && r.score == 0.0 && r.speed == StartSpeed && r.gravity == StartGravity
      && r.shield == 0 && r.slowmo == 0
      && |r.obs| == OpeningObstacles && |r.pows| <= OpeningObstacles
      && r.best == w.best && r.player == w.player
  {
    SpawnTimesAdds(c, ResetRun(w, seed), OpeningObstacles);
  }

  // ----- input -----

  /** The vertical velocity a release gives: `-(6 + min(jumpPower / 8, 12))`. */
  function ReleaseVelocity(jumpPower: real): (vy: real)
    ensures -18.0 <= vy
    ensures jumpPower >= 0.0 ==> vy <= -6.0
    ensures vy == -18.0 <==> jumpPower >= 96.0
  {
    -(6.0 + MinReal(jumpPower / 8.0, 12.0))
  }

  /** More charge never gives a weaker jump. */
  lemma ReleaseMonotone(a: real, b: real)
    requires a <= b
    ensures ReleaseVelocity(b) <= ReleaseVelocity(a)
  {
  }

  // ----- gating -----

  /** Which of the verify and submit buttons are enabled. */
  datatype Buttons = Buttons(verifyEnabled: bool, submitEnabled: bool)

  /** The button rule: both need a signer and a non-zero game ID; submit also
      needs the run to be over. */
  function ButtonsFor(hasSigner: bool, gameId: nat, alive: bool): (b: Buttons)
    ensures b.submitEnabled <==> hasSigner && gameId != 0 && !alive
    ensures b.verifyEnabled <==> hasSigner && gameId != 0
  {
    var hasIds := hasSigner && gameId != 0;
    Buttons(hasIds, hasIds && !alive)
  }

  /** Submit is never enabled while verify is not, nor during a live run. */
  lemma SubmitImpliesVerify(hasSigner: bool, gameId: nat, alive: bool)
    ensures ButtonsFor(hasSigner, gameId, alive).submitEnabled ==>
      ButtonsFor(hasSigner, gameId, alive).verifyEnabled && !alive
  {
  }

  /** The game ID of a wallet: its 256-bit digest modulo 10^9. */
  function GameIdOf(digest: nat): (id: nat)
    ensures id < 1_000_000_000
    ensures id <= digest
    ensures (digest - id) % 1_000_000_000 == 0
  {
    digest % 1_000_000_000
  }
}

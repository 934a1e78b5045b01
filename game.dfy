/** The page's game loop as it runs: one object holding the module-level
    variables of the game, whose handlers update them in place. Every method
    is proved to do to the game what the matching function of `Rules` does to
    a `World`, so the properties proved there hold of the running game. */
module Session {
  import opened Rng
  import opened Rules

  class Game {
    /** Canvas size, fixed when the page loads. */
    const canvas: Canvas

    var t: int
    var score: real
    var best: int
    var speed: real
    var gravity: real
    var shield: int
    var slowmo: int
    var alive: bool
    var player: Player
    var obs: seq<Obstacle>
    var pows: seq<PowerUp>

    /** The generator of the current run; none before the first run. */
    var rand: Generator?

    /** Whether a wallet is connected, and the claimed game ID (0 while none is). */
    var hasSigner: bool
    var gameId: nat
    /** The nonce and seed of the current run, reported with a score. */
    var runNonce: nat
    var seedHash: nat

    var verifyDisabled: bool
    var submitDisabled: bool

    /** The game seen as a `World`. */
    ghost function State(): World
      reads this`t, this`score, this`best, this`speed, this`gravity, this`shield, this`slowmo,
            this`alive, this`player, this`obs, this`pows, this`rand, rand
    {
      World(t, score, best, speed, gravity, shield, slowmo, alive, player, obs, pows,
            if rand == null then 0 else rand.origin, if rand == null then 0 else rand.drawn)
    }

    /** The buttons as `updateButtons` left them. */
    function ShownButtons(): Buttons
      reads this`verifyDisabled, this`submitDisabled
    {
      Buttons(!verifyDisabled, !submitDisabled)
    }

    /** What holds of the game between handlers, apart from the buttons. */
    ghost predicate Playable()
      reads this`t, this`score, this`best, this`speed, this`gravity, this`shield, this`slowmo,
            this`alive, this`player, this`obs, this`pows, this`rand, rand, this`gameId
    {
      && (rand != null ==> rand.Valid())
      && (alive ==> rand != null)
      && Inv(canvas, State())
      && gameId < 1_000_000_000
    }

    ghost predicate Valid()
      reads this, rand
    {
      Playable() && ShownButtons() == ButtonsFor(hasSigner, gameId, alive)
    }

    /** The page on load: no wallet, no game ID, no run; both buttons start
        disabled, as the page markup sets them before the first `updateButtons`. */
    constructor (width: int, height: int)
      ensures Valid()
      ensures canvas == Canvas(width, height) && State() == Initial(canvas)
      ensures !hasSigner && gameId == 0 && rand == null
      ensures verifyDisabled && submitDisabled
    {
      canvas := Canvas(width, height);
      t, score, best, speed, gravity := 0, 0.0, 0, StartSpeed, StartGravity;
      shield, slowmo, alive := 0, 0, false;
      player := Player((height - 40) as real, 0.0, false, 0.0);
      obs, pows := [], [];
      rand := null;
      hasSigner, gameId, runNonce, seedHash := false, 0, 0, 0;
      verifyDisabled, submitDisabled := true, true;
    }

    /** `updateButtons`: verify needs a wallet and a game ID, submit also a finished run. */
    method UpdateButtons()
      modifies this`verifyDisabled, this`submitDisabled
      ensures ShownButtons() == ButtonsFor(hasSigner, gameId, alive)
    {
      var hasIds := hasSigner && gameId != 0;
      verifyDisabled := !hasIds;
      submitDisabled := !(hasIds && !alive);
    }

    /** `spawnObstacle`: a new obstacle, then the power-up roll. */
    method SpawnObstacle()
      requires rand != null && rand.Valid()
      modifies rand, this`obs, this`pows
      ensures rand.Valid()
      ensures State() == Spawn(canvas, old(State()))
    {
      AddObstacle();
      RollPowerUp();
    }

    /** Four draws for the width, height, kind and position of a new obstacle. */
    method AddObstacle()
      requires rand != null && rand.Valid()
      modifies rand, this`obs
      ensures rand.Valid()
      ensures State() == ObstacleSpawn(canvas, old(State()))
    {
      var r := rand;
      var d1 := r.Next();
      var d2 := r.Next();
      var d3 := r.Next();
      var d4 := r.Next();
      obs := obs + [NewObstacle(canvas, d1, d2, d3, d4)];
    }

    /** The power-up roll and, with chance 0.18, two draws for the kind and
        position of a new power-up. */
    method RollPowerUp()
      requires rand != null && rand.Valid()
      modifies rand, this`pows
      ensures rand.Valid()
      ensures State() == PowerUpSpawn(canvas, old(State()))
    {
      var r := rand;
      var roll := r.Next();
      if roll < 0.18 {
        var d6 := r.Next();
        var d7 := r.Next();
        pows := pows + [NewPowerUp(canvas, d6, d7)];
      }
    }

    /** The obstacle loop, from the back: move left by `d`, and splice out
        what has left the screen. */
    method MoveObstacles(d: real)
      modifies this`obs
      ensures obs == Moved(old(obs), d)
    {
      ghost var os := obs;
      ghost var kept: seq<Obstacle> := [];
      var i := |obs| - 1;
      while i >= 0
        invariant -1 <= i < |os|
        invariant kept == Moved(os[i + 1..], d)
        invariant obs == os[..i + 1] + kept
      {
        MovedAt(os, i, d);
        var front, back := obs[..i], obs[i + 1..];
        assert front == os[..i] && obs[i] == os[i] && back == kept;
        var o := obs[i].(x := obs[i].x - d);
        if o.x + o.w as real < 0.0 {
          obs := front + back;
        } else {
          obs := front + ([o] + back);
          kept := [o] + kept;
        }
        assert os[..i] == os[..(i - 1) + 1];
        i := i - 1;
      }
    }

    /** The power-up loop, from the back: move left by `d`, splice out what
        has left the screen, and pick up (and splice out) what the player
        touches, starting the shield or the slow motion. */
    method MovePowerUps(d: real)
      modifies this`pows, this`shield, this`slowmo
      ensures var s := Swept(old(pows), d, player.y);
        && pows == s.kept
        && shield == (if s.gotShield then ShieldTicks else old(shield))
        && slowmo == (if s.gotSlow then SlowTicks else old(slowmo))
    {
      ghost var ps := pows;
      ghost var s := Swept([], d, player.y);
      var i := |pows| - 1;
      while i >= 0
        invariant -1 <= i < |ps|
        invariant s == Swept(ps[i + 1..], d, player.y)
        invariant pows == ps[..i + 1] + s.kept
        invariant shield == (if s.gotShield then ShieldTicks else old(shield))
        invariant slowmo == (if s.gotSlow then SlowTicks else old(slowmo))
      {
        SweptAt(ps, i, d, player.y);
        var front, back := pows[..i], pows[i + 1..];
        assert front == ps[..i] && pows[i] == ps[i] && back == s.kept;
        var p := pows[i].(x := pows[i].x - d);
        var keep := PickUp(p, s, old(shield), old(slowmo));
        if keep {
          pows := front + ([p] + back);
        } else {
          pows := front + back;
        }
        s := Sift(p, s, player.y);
        assert ps[..i] == ps[..(i - 1) + 1];
        i := i - 1;
      }
    }

    /** The power-up loop's body for the moved power-up `p`, in front of the
        sweep `rest` of the power-ups behind it: one that has left the screen
        goes, one the player touches starts the shield or the slow motion and
        goes, any other stays. */
    method PickUp(p: PowerUp, ghost rest: Sweep, ghost shield0: int, ghost slowmo0: int) returns (keep: bool)
      requires shield == (if rest.gotShield then ShieldTicks else shield0)
      requires slowmo == (if rest.gotSlow then SlowTicks else slowmo0)
      modifies this`shield, this`slowmo
      ensures var s := Sift(p, rest, player.y);
        && s.kept == (if keep then [p] + rest.kept else rest.kept)
        && shield == (if s.gotShield then ShieldTicks else shield0)
        && slowmo == (if s.gotSlow then SlowTicks else slowmo0)
    {
      if p.x + p.r < 0.0 {
        keep := false;
      } else if Touches(player.y, p) {
        if p.kind == ShieldPower {
          shield := ShieldTicks;
        } else {
          slowmo := SlowTicks;
        }
        keep := false;
      } else {
        keep := true;
      }
    }

    /** The collision loop applied to the game. */
    method Collide()
      requires ShownButtons() == ButtonsFor(hasSigner, gameId, alive)
      modifies this`obs, this`shield, this`alive, this`verifyDisabled, this`submitDisabled
      ensures State() == CollidePhase(canvas, old(State()))
      ensures ShownButtons() == ButtonsFor(hasSigner, gameId, alive)
    {
      CheckCollisions();
    }

    /** The collision loop, front to back: a hit with shield left spends the
        shield and moves the obstacle off screen; a hit without ends the run
        and updates the buttons. */
    method CheckCollisions()
      requires ShownButtons() == ButtonsFor(hasSigner, gameId, alive)
      modifies this`obs, this`shield, this`alive, this`verifyDisabled, this`submitDisabled
      ensures Clash(obs, shield, alive) == Collided(canvas, old(obs), player.y, old(shield), old(alive))
      ensures ShownButtons() == ButtonsFor(hasSigner, gameId, alive)
    {
      ghost var k := Clash(obs, shield, alive);
      var i := 0;
      while i < |obs|
        invariant 0 <= i <= |obs| == |k.obs|
        invariant Clash(obs, shield, alive) == CollideUpTo(canvas, player.y, k, i)
        invariant ShownButtons() == ButtonsFor(hasSigner, gameId, alive)
      {
        CollideAt(i);
        i := i + 1;
      }
      CollideUpToAll(canvas, player.y, k);
    }

    /** The collision loop's body for the obstacle at index `i`. */
    method CollideAt(i: nat)
      requires i < |obs| && ShownButtons() == ButtonsFor(hasSigner, gameId, alive)
      modifies this`obs, this`shield, this`alive, this`verifyDisabled, this`submitDisabled
      ensures Clash(obs, shield, alive) == CollideTurn(canvas, player.y, old(Clash(obs, shield, alive)), i)
      ensures ShownButtons() == ButtonsFor(hasSigner, gameId, alive)
    {
      var o := obs[i];
      if Hits(canvas, player.y, o) {
        if shield > 0 {
          shield := 0;
          obs := obs[i := o.(x := OffScreen)];
        } else {
          alive := false;
          UpdateButtons();
        }
      }
    }

    /** The difficulty curve and the slow-motion countdown; returns how far
        entities move this tick. */
    method Advance() returns (curSpeed: real)
      modifies this`t, this`speed, this`gravity, this`slowmo
      ensures State() == Tick(old(State()))
      ensures curSpeed == EffectiveSpeed(old(State()))
    {
      t := t + 1;
      speed := speed + SpeedStep;
      gravity := StartGravity + MinReal(t as real / 6000.0, 0.4);
      curSpeed := if slowmo > 0 then speed * 0.6 else speed;
      if slowmo > 0 {
        slowmo := slowmo - 1;
      }
    }

    /** Charge while on the ground, fall by gravity, land on the ground. */
    method MovePlayer()
      modifies this`player
      ensures State() == PlayerPhase(canvas, old(State()))
    {
      if player.charging && player.y >= canvas.Ground() {
        player := player.(jumpPower := player.jumpPower + 0.9);
      }
      player := player.(vy := player.vy + gravity);
      player := player.(y := player.y + player.vy);
      if player.y > canvas.Ground() {
        player := player.(y := canvas.Ground(), vy := 0.0);
      }
    }

    /** The spawn cadence: one draw for the window, and a spawn when the tick
        counter is a multiple of it. */
    method SpawnCadence()
      requires rand != null && rand.Valid()
      modifies rand, this`obs, this`pows
      ensures rand.Valid()
      ensures State() == Cadence(canvas, old(State()))
    {
      var draw := rand.Next();
      if t % Window(draw) == 0 {
        SpawnObstacle();
      }
    }

    /** `step`: one animation frame. A finished run is left as it is; a live
        one advances the difficulty, the player, the spawn cadence, both move
        loops, the shield, the collisions and the score. */
    method Step()
      requires Valid()
      modifies this`t, this`speed, this`gravity, this`slowmo, this`player, this`obs, this`pows,
               this`shield, this`alive, this`score, this`best, this`verifyDisabled,
               this`submitDisabled, rand
      ensures Valid()
      ensures State() == StepWorld(canvas, old(State()))
    {
      StepPreservesInv(canvas, State());
      if alive {
        Move();
        Settle();
      }
    }

    /** The first half of `step`: difficulty, player, spawn cadence, move loops. */
    method Move()
      requires rand != null && rand.Valid()
      modifies this`t, this`speed, this`gravity, this`slowmo, this`player, this`obs, this`pows,
               this`shield, rand
      ensures rand.Valid()
      ensures State() == MotionPhase(canvas, old(State()))
    {
      var curSpeed := Advance();
      MovePlayer();
      SpawnCadence();
      MoveEntities(curSpeed);
    }

    /** Both move loops. */
    method MoveEntities(d: real)
      modifies this`obs, this`pows, this`shield, this`slowmo
      ensures State() == MovePhase(old(State()), d)
    {
      MoveObstacles(d);
      MovePowerUps(d);
    }

    /** The second half of `step`: shield countdown, collisions, score. */
    method Settle()
      requires ShownButtons() == ButtonsFor(hasSigner, gameId, alive)
      modifies this`obs, this`shield, this`alive, this`score, this`best,
               this`verifyDisabled, this`submitDisabled
      ensures ShownButtons() == ButtonsFor(hasSigner, gameId, alive)
      ensures State() == SettlePhase(canvas, old(State()))
    {
      CountDownShield();
      Collide();
      AddScore();
    }

    /** The shield counts down while it lasts. */
    method CountDownShield()
      modifies this`shield
      ensures State() == ShieldPhase(old(State()))
    {
      if shield > 0 {
        shield := shield - 1;
      }
    }

    /** One point, half in slow motion; best follows the whole score. */
    method AddScore()
      modifies this`score, this`best
      ensures State() == Scored(old(State()))
    {
      score := score + (if slowmo != 0 then 0.5 else 1.0);
      best := MaxInt(best, score.Floor);
    }

    /** The opening of a run: six spawns in a row. */
    method SpawnOpening()
      requires rand != null && rand.Valid()
      modifies rand, this`obs, this`pows
      ensures rand.Valid()
      ensures State() == SpawnTimes(canvas, old(State()), OpeningObstacles)
    {
      ghost var w := State();
      var i := 0;
      while i < OpeningObstacles
        invariant 0 <= i <= OpeningObstacles && rand.Valid()
        invariant State() == SpawnTimes(canvas, w, i)
      {
        SpawnTimesLast(canvas, w, i);
        SpawnObstacle();
        i := i + 1;
      }
    }

    /** `startNewRun`, from the moment the seed is known: record the nonce and
        seed, seed a fresh generator, reset the run, spawn the six opening
        obstacles and update the buttons. */
    method StartNewRun(seed: nat, nonce: nat)
      requires Playable() && seed < SeedBound && nonce < 1_000_000_000
      modifies this`runNonce, this`seedHash, this`rand, this`t, this`alive, this`score,
               this`speed, this`gravity, this`shield, this`slowmo, this`obs, this`pows,
               this`verifyDisabled, this`submitDisabled
      ensures Valid() && fresh(rand) && alive
      ensures State() == StartRun(canvas, old(State()), seed)
      ensures runNonce == nonce && seedHash == seed
    {
      BeginRun(seed);
      runNonce, seedHash := nonce, seed;
    }

    /** The reset and the six opening spawns. */
    method BeginRun(seed: nat)
      requires Playable() && seed < SeedBound
      modifies this`rand, this`t, this`alive, this`score, this`speed, this`gravity,
               this`shield, this`slowmo, this`obs, this`pows, this`verifyDisabled, this`submitDisabled
      ensures Valid() && fresh(rand) && alive
      ensures State() == StartRun(canvas, old(State()), seed)
    {
      StartRunResets(canvas, State(), seed);
      Reset(seed);
      SpawnOpening();
      UpdateButtons();
    }

    /** The reset: a fresh generator seeded from `seed`, counters and
        difficulty back to their start, both lists emptied. */
    method Reset(seed: nat)
      requires seed < SeedBound
      modifies this`rand, this`t, this`alive, this`score, this`speed, this`gravity,
               this`shield, this`slowmo, this`obs, this`pows
      ensures fresh(rand) && rand.Valid()
      ensures State() == ResetRun(old(State()), seed)
    {
      Reseed(seed);
      ResetCounters();
      ResetEffects();
    }

    /** `rngFactory`: a fresh generator seeded from `seed`. */
    method Reseed(seed: nat)
      requires seed < SeedBound
      modifies this`rand
      ensures fresh(rand) && rand.Valid()
      ensures State() == old(State()).(origin := InitialState(seed), drawn := 0)
    {
      rand := new Generator(seed);
    }

    /** The run live again, with tick counter, score and difficulty at their start. */
    method ResetCounters()
      modifies this`t, this`alive, this`score, this`speed, this`gravity
      ensures State() == old(State()).(t := 0, alive := true, score := 0.0, speed := StartSpeed,
                                       gravity := StartGravity)
    {
      t, alive, score, speed, gravity := 0, true, 0.0, StartSpeed, StartGravity;
    }

    /** No shield, no slow motion, no obstacles and no power-ups. */
    method ResetEffects()
      modifies this`shield, this`slowmo, this`obs, this`pows
      ensures State() == old(State()).(shield := 0, slowmo := 0, obs := [], pows := [])
    {
      shield, slowmo := 0, 0;
      obs, pows := [], [];
    }

    /** The key-down listeners: an up key charges a jump during a run; any
        key restarts a finished run once a wallet and a game ID are there. */
    method KeyDown(code: string, seed: nat, nonce: nat)
      requires Valid() && seed < SeedBound && nonce < 1_000_000_000
      modifies this`player, this`runNonce, this`seedHash, this`rand, this`t, this`alive, this`score,
               this`speed, this`gravity, this`shield, this`slowmo, this`obs, this`pows,
               this`verifyDisabled, this`submitDisabled
      ensures Valid()
      ensures hasSigner == old(hasSigner) && gameId == old(gameId)
      ensures old(alive) && (code == "ArrowUp" || code == "KeyW") ==>
        State() == old(State()).(player := old(player).(charging := true))
      ensures old(alive) && !(code == "ArrowUp" || code == "KeyW") ==> State() == old(State())
      ensures !old(alive) && old(hasSigner) && old(gameId) != 0 ==>
        State() == StartRun(canvas, old(State()), seed) && runNonce == nonce && seedHash == seed
      ensures !(!old(alive) && old(hasSigner) && old(gameId) != 0) ==>
        runNonce == old(runNonce) && seedHash == old(seedHash)
      ensures !old(alive) && !(old(hasSigner) && old(gameId) != 0) ==> State() == old(State())
    {
      if alive {
        if code == "ArrowUp" || code == "KeyW" {
          player := player.(charging := true);
        }
      } else if hasSigner && gameId != 0 {
        StartNewRun(seed, nonce);
      }
    }

    /** The pointer-down listeners: charge during a run, restart a finished
        one once a wallet and a game ID are there. */
    method PointerDown(seed: nat, nonce: nat)
      requires Valid() && seed < SeedBound && nonce < 1_000_000_000
      modifies this`player, this`runNonce, this`seedHash, this`rand, this`t, this`alive, this`score,
               this`speed, this`gravity, this`shield, this`slowmo, this`obs, this`pows,
               this`verifyDisabled, this`submitDisabled
      ensures Valid()
      ensures hasSigner == old(hasSigner) && gameId == old(gameId)
      ensures old(alive) ==> State() == old(State()).(player := old(player).(charging := true))
      ensures !old(alive) && old(hasSigner) && old(gameId) != 0 ==>
        State() == StartRun(canvas, old(State()), seed) && runNonce == nonce && seedHash == seed
      ensures !(!old(alive) && old(hasSigner) && old(gameId) != 0) ==>
        runNonce == old(runNonce) && seedHash == old(seedHash)
      ensures !old(alive) && !(old(hasSigner) && old(gameId) != 0) ==> State() == old(State())
    {
      if alive {
        player := player.(charging := true);
      } else if hasSigner && gameId != 0 {
        StartNewRun(seed, nonce);
      }
    }

    /** Release a charged jump: upward speed from the charge, charge cleared. */
    method Release()
      requires Valid()
      modifies this`player
      ensures Valid()
      ensures player == old(player).(vy := ReleaseVelocity(old(player).jumpPower), charging := false, jumpPower := 0.0)
    {
      player := player.(vy := -(6.0 + MinReal(player.jumpPower / 8.0, 12.0)), charging := false, jumpPower := 0.0);
    }

    /** The key-up listener: an up key releases the jump during a run. */
    method KeyUp(code: string)
      requires Valid()
      modifies this`player
      ensures Valid()
      ensures old(alive) && (code == "ArrowUp" || code == "KeyW") ==>
        player == old(player).(vy := ReleaseVelocity(old(player).jumpPower), charging := false, jumpPower := 0.0)
      ensures !(old(alive) && (code == "ArrowUp" || code == "KeyW")) ==> player == old(player)
    {
      if alive && (code == "ArrowUp" || code == "KeyW") {
        Release();
      }
    }

    /** The pointer-up listener: release the jump during a run. */
    method PointerUp()
      requires Valid()
      modifies this`player
      ensures Valid()
      ensures old(alive) ==>
        player == old(player).(vy := ReleaseVelocity(old(player).jumpPower), charging := false, jumpPower := 0.0)
      ensures !old(alive) ==> player == old(player)
    {
      if alive {
        Release();
      }
    }

    /** A wallet connects: there is a signer now, and the buttons follow. */
    method ConnectWallet()
      requires Valid()
      modifies this`hasSigner, this`verifyDisabled, this`submitDisabled
      ensures Valid() && hasSigner
    {
      hasSigner := true;
      UpdateButtons();
    }

    /** The claim button: connect a wallet if there is none, take the
        wallet's digest modulo 10^9 as the game ID, and start a run. */
    method ClaimGameId(digest: nat, seed: nat, nonce: nat)
      requires Valid() && seed < SeedBound && nonce < 1_000_000_000
      modifies this
      ensures Valid() && hasSigner && gameId == GameIdOf(digest)
      ensures alive && ShownButtons() == Buttons(gameId != 0, false)
      ensures State() == StartRun(canvas, old(State()), seed)
      ensures runNonce == nonce && seedHash == seed
    {
      if !hasSigner {
        ConnectWallet();
      }
      gameId := digest % 1_000_000_000;
      ghost var w := State();
      StartNewRun(seed, nonce);
      assert State() == StartRun(canvas, w, seed);
    }
  }
}

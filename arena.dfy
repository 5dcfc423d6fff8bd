// The arena component (components/GameCanvas.tsx): the mutable game state held across
// animation frames, and the handlers that update it in place.
module Arena {
  import opened Types
  import opened Combat
  import opened EffectManager
  import opened Projectiles
  import opened Pickups
  import opened BlackHoles
  import opened Specials
  import opened Frames

  /** The body of fireSpecial on the fighters and the bullet list. */
  method Special(d: Duel, bs: seq<Bullet>, side: Side, cfg: Config, input: Input, dmgMult: real, m: MathLib)
    returns (duel: Duel, bullets: seq<Bullet>)
    ensures (duel, bullets) ==
      Cast(d, bs, side, AbilityOf(side, cfg.p1.specialId, cfg.p2.specialId),
           AimAngle(side, cfg.aimMode, d, input.mouseX, input.mouseY, m), dmgMult, m)
  {
    duel, bullets := d, bs;
    var c := duel.Get(side);
    if c.specialCharge < 100 {
      return;
    }
    c := c.(specialCharge := 0);
    duel := duel.With(side, c);
    var isP1 := side == P1;
    var specialId :=
      if isP1 then (if cfg.p1.specialId.Some? then cfg.p1.specialId.value else GMasti)
      else (if cfg.p2.specialId.Some? then cfg.p2.specialId.value else SixFtBaddie);
    match specialId {
      case RohanMob =>
        duel := duel.With(side, c.(effects := c.effects + [Effect(Shield, 300)]));
      case Lambardaar =>
        duel := duel.With(side, c.(effects := c.effects + [Effect(Giant, 600)]));
      case Singh =>
        duel := duel.With(side, c.(effects := c.effects + [Effect(Tough, 600)]));
      case Soni =>
        duel := duel.With(side, c.(effects := c.effects + [Effect(GoldMode, 480)]));
      case Pal =>
        duel := duel.(p1 := duel.p1.(effects := duel.p1.effects + [Effect(Lovely, 600)]));
        duel := duel.(p2 := duel.p2.(effects := duel.p2.effects + [Effect(Lovely, 600)]));
      case _ =>
        var angle := Aim(side, cfg, d, input, m);
        ghost var logic := if specialId == GMasti then Fire else Ice;
        bullets := bullets + [Bullet(
          x := c.x + m.cos(angle) * 40.0,
          y := c.y + m.sin(angle) * 40.0,
          vx := m.cos(angle) * (if isP1 then 16.0 else 12.0),
          vy := m.sin(angle) * (if isP1 then 16.0 else 12.0),
          owner := side,
          dmg := (if isP1 then 80.0 else 50.0) * dmgMult,
          size := if isP1 then 40.0 else 30.0,
          isSpecial := true,
          logic := if specialId == GMasti then Fire else Ice)];
        assert bullets == bs + [BoltOf(side, c, angle, dmgMult, logic, m)];
        duel := duel.(screenShake := 20.0);
    }
  }

  /** The special bolt's aim: the pointer in MANUAL mode for player one (with the `|| 0` and
      `|| 1` fallbacks), the opponent otherwise. */
  method Aim(side: Side, cfg: Config, d: Duel, input: Input, m: MathLib) returns (angle: real)
    ensures angle == AimAngle(side, cfg.aimMode, d, input.mouseX, input.mouseY, m)
  {
    var c := d.Get(side);
    if side == P1 {
      if cfg.aimMode == Manual {
        var dx := input.mouseX - c.x;
        var dy := input.mouseY - c.y;
        angle := m.atan2(OrDefault(dy, 0.0), OrDefault(dx, 1.0));
      } else {
        var target := d.p2;
        angle := m.atan2(target.y - c.y, target.x - c.x);
      }
    } else {
      var target := d.p1;
      angle := m.atan2(target.y - c.y, target.x - c.x);
    }
  }

  /** The movement keys as a direction of length one, or zero. */
  method Direction(keys: Keys, m: MathLib) returns (moveX: real, moveY: real)
    ensures (moveX, moveY) == Heading(keys, m)
  {
    moveX, moveY := 0.0, 0.0;
    if keys.arrowUp || keys.keyW { moveY := -1.0; }
    if keys.arrowDown || keys.keyS { moveY := 1.0; }
    if keys.arrowLeft || keys.keyA { moveX := -1.0; }
    if keys.arrowRight || keys.keyD { moveX := 1.0; }
    ghost var axis := KeyAxis(keys);
    assert moveX == axis.0 && moveY == axis.1;
    if moveX != 0.0 || moveY != 0.0 {
      var len := m.sqrt(moveX * moveX + moveY * moveY);
      assert moveX * moveX + moveY * moveY == axis.0 * axis.0 + axis.1 * axis.1;
      if len > 0.0 {
        moveX := moveX / len;
        moveY := moveY / len;
      }
    }
  }

  /** Player one's movement: accelerate along the keys, damp, move and clamp. */
  method Steer(f0: Fighter, keys: Keys, m: MathLib) returns (f: Fighter)
    ensures f == Steered(f0, keys, m)
  {
    var moveX, moveY := Direction(keys, m);
    ghost var g := Pushed(f0, (moveX, moveY));
    f := f0;
    f := f.(vx := f.vx + moveX * f.speed * 0.2, vy := f.vy + moveY * f.speed * 0.2);
    f := f.(vx := f.vx * 0.85, vy := f.vy * 0.85);
    assert f.vx == g.vx && f.vy == g.vy;
    f := f.(x := f.x + f.vx, y := f.y + f.vy);
    f := f.(x := Clamp(f.radius, Width, f.x), y := Clamp(f.radius, Height, f.y));
    assert f == g;
  }

  /** Player one's gun: player one after the cooldown step, and the shots fired. */
  method Shoot(d: Duel, cfg: Config, input: Input, dmgMult: real, m: MathLib) returns (f: Fighter, shots: seq<Bullet>)
    ensures (f, shots) == Gun(d, cfg, input, dmgMult, m)
  {
    f := d.p1;
    shots := [];
    if f.cooldown > 0 {
      f := f.(cooldown := f.cooldown - 1);
    }
    if input.keys.space && f.cooldown <= 0 {
      var angle;
      if cfg.aimMode == Manual {
        var dx := input.mouseX - f.x;
        var dy := input.mouseY - f.y;
        angle := m.atan2(OrDefault(dy, 0.0), OrDefault(dx, 1.0));
      } else {
        angle := m.atan2(d.p2.y - f.y, d.p2.x - f.x);
      }
      var vx := m.cos(angle);
      var vy := m.sin(angle);
      var velocity := cfg.bulletVelocity;
      shots := [Bullet(
        x := f.x + vx * f.radius,
        y := f.y + vy * f.radius,
        vx := vx * velocity,
        vy := vy * velocity,
        owner := P1,
        dmg := (8.0 + (cfg.p1.stats.power as real) * 0.8) * dmgMult,
        size := 10.0,
        isSpecial := false,
        logic := Plain)];
      assert angle == AimAngle(P1, cfg.aimMode, d, input.mouseX, input.mouseY, m);
      f := f.(cooldown := 15 - MinInt(10, cfg.p1.stats.speed));
      assert f == Gun(d, cfg, input, dmgMult, m).0;
      ghost var g := Gun(d, cfg, input, dmgMult, m).1;
      assert |g| == 1;
      assert shots[0].x == g[0].x;
      assert shots[0].vx == g[0].vx;
      assert shots[0].dmg == g[0].dmg;
      assert shots[0].owner == g[0].owner;
      assert shots[0].y == g[0].y;
      assert shots[0].vy == g[0].vy;
      assert shots[0].size == g[0].size && shots[0].isSpecial == g[0].isSpecial && shots[0].logic == g[0].logic;
      assert shots[0] == g[0];
      assert shots == Gun(d, cfg, input, dmgMult, m).1;
    }
  }

  /** The AI's steering: it closes in on the target beyond 350 pixels and weaves on the
      clock otherwise. */
  method Chase(f0: Fighter, target: Fighter, time: int, m: MathLib) returns (f: Fighter)
    ensures f == Chased(f0, target, time, m)
  {
    var dx := target.x - f0.x;
    var dy := target.y - f0.y;
    f := f0;
    if Beyond(dx, dy, 350.0) {
      var angle := m.atan2(dy, dx);
      f := f.(vx := f.vx + m.cos(angle) * f.speed * 0.1, vy := f.vy + m.sin(angle) * f.speed * 0.1);
    } else {
      f := f.(vx := f.vx + m.sin((time as real) * 0.05) * f.speed * 0.15,
              vy := f.vy + m.cos((time as real) * 0.03) * f.speed * 0.15);
    }
    f := f.(vx := f.vx * 0.9, vy := f.vy * 0.9);
    ghost var g := Chased(f0, target, time, m);
    assert f == f0.(vx := g.vx, vy := g.vy);
    f := f.(x := f.x + f.vx, y := f.y + f.vy);
    f := f.(x := Max(f.radius, Min(Width - f.radius, f.x)), y := Max(f.radius, Min(Height - f.radius, f.y)));
  }

  /** The AI's gun: an aimed shot, or the ring of eight pushed one by one. */
  method BossShoot(d: Duel, cfg: Config, dmgMult: real, time: int, m: MathLib) returns (f: Fighter, shots: seq<Bullet>)
    ensures (f, shots) == BossGun(d, cfg, dmgMult, time, m)
  {
    f := d.p2;
    shots := [];
    if f.cooldown > 0 {
      f := f.(cooldown := f.cooldown - 1);
      return;
    }
    var bossDmg := (5.0 + (cfg.p2.stats.power as real) * 0.6) * dmgMult;
    if time % 250 < 120 {
      var angle := m.atan2(d.p1.y - f.y, d.p1.x - f.x);
      shots := [Bullet(f.x, f.y, m.cos(angle) * 7.0, m.sin(angle) * 7.0, P2, bossDmg, 8.0, false, Plain)];
      f := f.(cooldown := 35);
      ghost var r := BossGun(d, cfg, dmgMult, time, m);
      assert f == r.0;
      assert |r.1| == 1;
      assert r.1[0].dmg == bossDmg;
      assert r.1[0].vx == shots[0].vx;
      assert shots == r.1;
    } else {
      var i := 0;
      while i < 8
        invariant 0 <= i <= 8
        invariant shots == Ring(f, bossDmg * 0.8, i, m)
      {
        var angle := ((i as real) / 8.0) * m.pi * 2.0;
        var shot := Bullet(f.x, f.y, m.cos(angle) * 5.0, m.sin(angle) * 5.0, P2, bossDmg * 0.8, 7.0, false, Plain);
        assert angle == RingAngle(i, m);
        shots := shots + [shot];
        i := i + 1;
      }
      f := f.(cooldown := 90);
      ghost var r := BossGun(d, cfg, dmgMult, time, m);
      assert f == r.0;
      assert shots == r.1;
    }
  }

  class Game {
    const cfg: Config
    var p1: Fighter
    var p2: Fighter
    var screenShake: real
    var bullets: seq<Bullet>
    var powerups: seq<PowerUp>
    var blackHoles: seq<Hole>
    var time: int
    var deathTimer: int
    var gameEnded: bool
    /** The onGameOver calls made so far. */
    var results: seq<GameResult>
    var paused: bool

    function Fighters(): Duel
      reads this
    {
      Duel(p1, p2, screenShake)
    }

    function State(): World
      reads this
    {
      World(Fighters(), bullets, powerups, blackHoles, time, deathTimer, gameEnded, results)
    }

    /** The invariant every reachable game keeps. */
    predicate Valid()
      reads this
    {
      Settled(State()) && Bounded(Fighters()) && NoStacking(Fighters())
    }

    /** The initial game state for the two fighters and the arena's props. */
    constructor (cfg: Config)
      ensures this.cfg == cfg
      ensures State() == Initial(cfg)
      ensures !paused
      ensures Valid()
    {
      this.cfg := cfg;
      var speed1 := 3.0 + (OrDefaultInt(cfg.p1.stats.speed, 5) as real) * 0.3;
      var speed2 := 2.0 + (OrDefaultInt(cfg.p2.stats.speed, 5) as real) * 0.2;
      p1 := Fighter(x := 100.0, y := 300.0, hp := cfg.p1.stats.hp, maxHp := cfg.p1.stats.hp,
                    vx := 0.0, vy := 0.0, cooldown := 0, radius := 40.0, baseRadius := 40.0,
                    speed := speed1, baseSpeed := speed1, effects := [], hitFlash := 0, specialCharge := 0);
      p2 := Fighter(x := 700.0, y := 300.0, hp := cfg.p2.stats.hp, maxHp := cfg.p2.stats.hp,
                    vx := 0.0, vy := 0.0, cooldown := 0, radius := 45.0, baseRadius := 45.0,
                    speed := speed2, baseSpeed := speed2, effects := [], hitFlash := 0, specialCharge := 0);
      screenShake := 0.0;
      bullets := [];
      powerups := [];
      blackHoles := [];
      time := 0;
      deathTimer := 0;
      gameEnded := false;
      results := [];
      paused := false;
    }

    /** togglePause: no effect once the game has ended. */
    method TogglePause()
      modifies this
      ensures paused == if old(gameEnded) then old(paused) else !old(paused)
      ensures State() == old(State())
    {
      if gameEnded {
        return;
      }
      paused := !paused;
    }

    /** spawnPowerUp, with the three random draws taken from the input. */
    method SpawnPowerUp(input: Input)
      requires InputOk(input)
      modifies this
      ensures State() == Spawn(old(State()), cfg, input)
      ensures paused == old(paused)
    {
      var spawned := Spawned(cfg.allowedPowerUps, input.pick, input.rx, input.ry);
      if spawned.Some? {
        powerups := powerups + [spawned.value];
      }
    }

    /** fireSpecial for `side`: spends a full charge on the ability the fighter carries. */
    method FireSpecial(side: Side, dmgMult: real, input: Input, m: MathLib)
      modifies this
      ensures State() == SpecialStep(old(State()), cfg, side, input, dmgMult, m)
      ensures paused == old(paused)
    {
      var duel;
      duel, bullets := Special(Fighters(), bullets, side, cfg, input, dmgMult, m);
      p1, p2, screenShake := duel.p1, duel.p2, duel.screenShake;
    }

    method MovePlayer(keys: Keys, m: MathLib)
      modifies this
      ensures State() == MoveStep(old(State()), keys, m)
      ensures paused == old(paused)
    {
      p1 := Steer(p1, keys, m);
    }

    method FirePlayer(input: Input, dmgMult: real, m: MathLib)
      modifies this
      ensures State() == FireStep(old(State()), cfg, input, dmgMult, m)
      ensures paused == old(paused)
    {
      var shots;
      p1, shots := Shoot(Fighters(), cfg, input, dmgMult, m);
      bullets := bullets + shots;
    }

    method SteerBoss(m: MathLib)
      modifies this
      ensures State() == SteerStep(old(State()), m)
      ensures paused == old(paused)
    {
      p2 := Chase(p2, p1, time, m);
    }

    method FireBoss(dmgMult: real, m: MathLib)
      modifies this
      ensures State() == BossFireStep(old(State()), cfg, dmgMult, m)
      ensures paused == old(paused)
    {
      var shots;
      p2, shots := BossShoot(Fighters(), cfg, dmgMult, time, m);
      bullets := bullets + shots;
    }

    /** The death branch of updateGameLogic. */
    method CountDown()
      modifies this
      ensures State() == DeathFrame(old(State()), cfg)
      ensures paused == old(paused)
    {
      if deathTimer == 0 {
        deathTimer := 1;
      }
      deathTimer := deathTimer + 1;
      if deathTimer > 90 {
        gameEnded := true;
        var winner := if p1.hp > 0.0 then Some(cfg.p1) else if p2.hp > 0.0 then Some(cfg.p2) else None;
        var message :=
          if winner.Some? then (if winner.value.id == Player1 then "You have proved your strength!" else "The Legend remains supreme.")
          else "Double KO!";
        results := results + [GameResult(winner, message)];
      }
    }

    /** The clock ticks and the screen shake decays. */
    method AdvanceClock()
      modifies this
      ensures State() == Clock(old(State()))
      ensures paused == old(paused)
    {
      time := time + 1;
      if screenShake > 0.0 {
        screenShake := screenShake * 0.9;
      }
    }

    /** The black-hole loop. */
    method PullHoles(m: MathLib)
      requires m.Valid()
      modifies this
      ensures State() == HoleStep(old(State()), old(time), m)
      ensures paused == old(paused)
    {
      var duel;
      blackHoles, duel := UpdateHoles(blackHoles, Fighters(), time, m);
      p1, p2, screenShake := duel.p1, duel.p2, duel.screenShake;
    }

    /** The effect manager on both fighters; returns their statuses. */
    method ManageBoth() returns (p1Status: Status, p2Status: Status)
      modifies this
      ensures State() == ManageStep(old(State()))
      ensures (p1Status, p2Status) == StatusPair(State())
      ensures paused == old(paused)
    {
      var g1, g2;
      g1, p1Status := ManageEffects(p1, time);
      g2, p2Status := ManageEffects(p2, time);
      p1, p2 := g1, g2;
    }

    /** The clock, the spawn, the holes and the effect manager; returns the statuses. */
    method StartFrame(input: Input, m: MathLib) returns (p1Status: Status, p2Status: Status)
      requires InputOk(input) && m.Valid()
      modifies this
      ensures State() == Prelude(old(State()), cfg, input, m)
      ensures (p1Status, p2Status) == StatusPair(State())
      ensures paused == old(paused)
    {
      AdvanceClock();
      if time % 600 == 0 {
        SpawnPowerUp(input);
      }
      PullHoles(m);
      p1Status, p2Status := ManageBoth();
    }

    /** Player one's movement, gun and special. */
    method PlayerTurn(input: Input, dmgMult: real, m: MathLib)
      modifies this
      ensures State() == PlayerPhase(old(State()), cfg, input, dmgMult, m)
      ensures paused == old(paused)
    {
      MovePlayer(input.keys, m);
      FirePlayer(input, dmgMult, m);
      if input.keys.keyE && p1.specialCharge >= 100 {
        FireSpecial(P1, dmgMult, input, m);
      }
    }

    /** The AI's movement, gun and special. */
    method BossTurn(input: Input, dmgMult: real, m: MathLib)
      modifies this
      ensures State() == BossPhase(old(State()), cfg, input, dmgMult, m)
      ensures paused == old(paused)
    {
      SteerBoss(m);
      FireBoss(dmgMult, m);
      if p2.specialCharge >= 100 {
        FireSpecial(P2, dmgMult, input, m);
      }
    }

    /** updateBullets. */
    method MoveBullets(p1Status: Status, p2Status: Status)
      modifies this
      ensures State() == BulletStep(old(State()), p1Status, p2Status)
      ensures paused == old(paused)
    {
      var duel;
      bullets, duel := UpdateBullets(bullets, Fighters(), p1Status, p2Status);
      p1, p2, screenShake := duel.p1, duel.p2, duel.screenShake;
    }

    /** The power-up collisions. */
    method CollectPowerUps()
      modifies this
      ensures State() == PickupStep(old(State()))
      ensures paused == old(paused)
    {
      var board;
      powerups, board := SweepPowerUps(powerups, Board(Fighters(), blackHoles));
      p1, p2, screenShake, blackHoles := board.duel.p1, board.duel.p2, board.duel.screenShake, board.holes;
    }

    /** updateGameLogic: the death countdown, or one live frame in the source's order. */
    method UpdateGameLogic(input: Input, m: MathLib)
      requires InputOk(input) && m.Valid()
      modifies this
      ensures State() == Frame(old(State()), cfg, input, m)
      ensures paused == old(paused)
    {
      if p1.hp <= 0.0 || p2.hp <= 0.0 {
        CountDown();
        return;
      }
      var p1Status, p2Status := StartFrame(input, m);
      PlayerTurn(input, p1Status.damageMult, m);
      BossTurn(input, p2Status.damageMult, m);
      MoveBullets(p1Status, p2Status);
      CollectPowerUps();
    }

    /** animate's update: nothing once ended or while paused, otherwise one frame; the
        invariant is kept. */
    method Animate(input: Input, m: MathLib)
      requires InputOk(input) && m.Valid() && Valid()
      modifies this
      ensures State() == Frames.Animate(old(State()), old(paused), cfg, input, m)
      ensures paused == old(paused)
      ensures Valid()
    {
      AnimateSettled(State(), paused, cfg, input, m);
      FrameBounded(State(), cfg, input, m);
      FrameNoStacking(State(), cfg, input, m);
      if gameEnded || paused {
        return;
      }
      UpdateGameLogic(input, m);
    }
  }
}

// One frame of the arena (`updateGameLogic` in components/GameCanvas.tsx) as a function of the
// game state, phase by phase, and what a run of frames guarantees.
module Frames {
  import opened Types
  import opened Combat
  import opened EffectManager
  import opened Projectiles
  import opened Pickups
  import opened BlackHoles
  import opened Specials

  /** The keys the arena listens to, as last reported by the keyboard handlers. */
  datatype Keys = Keys(
    arrowUp: bool, arrowDown: bool, arrowLeft: bool, arrowRight: bool,
    keyW: bool, keyS: bool, keyA: bool, keyD: bool,
    space: bool, keyE: bool)

  /** What a frame reads from outside the state: the keys, the pointer, and the three
      Math.random() draws of a power-up spawn. */
  datatype Input = Input(keys: Keys, mouseX: real, mouseY: real, pick: real, rx: real, ry: real)

  predicate InputOk(i: Input)
  {
    0.0 <= i.pick < 1.0 && 0.0 <= i.rx < 1.0 && 0.0 <= i.ry < 1.0
  }

  /** The arena's props. */
  datatype Config = Config(
    p1: FighterData, p2: FighterData,
    aimMode: AimMode,
    allowedPowerUps: seq<PowerUpType>,
    bulletVelocity: real)

  /** The game state record, without particles, floating texts and images; `results` lists
      the onGameOver calls made so far. */
  datatype World = World(
    duel: Duel,
    bullets: seq<Bullet>,
    powerups: seq<PowerUp>,
    holes: seq<Hole>,
    time: int,
    deathTimer: int,
    gameEnded: bool,
    results: seq<GameResult>)

  /** `n || d` on a whole number. */
  function OrDefaultInt(n: int, d: int): int { if n == 0 then d else n }

  function Starter(x: real, y: real, hp: real, radius: real, speed: real): Fighter
  {
    Fighter(x := x, y := y, hp := hp, maxHp := hp, vx := 0.0, vy := 0.0, cooldown := 0,
            radius := radius, baseRadius := radius, speed := speed, baseSpeed := speed,
            effects := [], hitFlash := 0, specialCharge := 0)
  }

  /** The initial game state: player one at (100, 300) with radius 40, player two at
      (700, 300) with radius 45, both at full health with no charge. */
  function Initial(cfg: Config): (w: World)
    ensures w.duel.p1.hp == w.duel.p1.maxHp == cfg.p1.stats.hp
    ensures w.duel.p2.hp == w.duel.p2.maxHp == cfg.p2.stats.hp
    ensures w.duel.p1.specialCharge == 0 && w.duel.p2.specialCharge == 0
    ensures w.duel.p1.speed == w.duel.p1.baseSpeed == 3.0 + (OrDefaultInt(cfg.p1.stats.speed, 5) as real) * 0.3
    ensures w.duel.p2.speed == w.duel.p2.baseSpeed == 2.0 + (OrDefaultInt(cfg.p2.stats.speed, 5) as real) * 0.2
    ensures cfg.p1.stats.speed == 5 ==> w.duel.p1.baseSpeed == 4.5
    ensures w.duel.p1.vx == w.duel.p1.vy == 0.0 && w.duel.p2.vx == w.duel.p2.vy == 0.0
    ensures w.time == 0 && w.deathTimer == 0 && !w.gameEnded && w.results == []
  {
    World(
      duel := Duel(
        Starter(100.0, 300.0, cfg.p1.stats.hp, 40.0, 3.0 + (OrDefaultInt(cfg.p1.stats.speed, 5) as real) * 0.3),
        Starter(700.0, 300.0, cfg.p2.stats.hp, 45.0, 2.0 + (OrDefaultInt(cfg.p2.stats.speed, 5) as real) * 0.2),
        0.0),
      bullets := [], powerups := [], holes := [],
      time := 0, deathTimer := 0, gameEnded := false, results := [])
  }

  predicate Dying(d: Duel)
  {
    d.p1.hp <= 0.0 || d.p2.hp <= 0.0
  }

  /** The winner rule: player one if alive, else player two if alive, else a draw. */
  function WinnerOf(cfg: Config, d: Duel): (r: Option<FighterData>)
    ensures r == Some(cfg.p1) <== d.p1.hp > 0.0
    ensures r == Some(cfg.p2) <== d.p1.hp <= 0.0 && d.p2.hp > 0.0
    ensures r == None <==> d.p1.hp <= 0.0 && d.p2.hp <= 0.0
  {
    if d.p1.hp > 0.0 then Some(cfg.p1) else if d.p2.hp > 0.0 then Some(cfg.p2) else None
  }

  function MessageFor(winner: Option<FighterData>): string
  {
    if winner.None? then "Double KO!"
    else if winner.value.id == Player1 then "You have proved your strength!"
    else "The Legend remains supreme."
  }

  function ResultOf(cfg: Config, d: Duel): GameResult
  {
    var winner := WinnerOf(cfg, d);
    GameResult(winner, MessageFor(winner))
  }

  /** A frame while a fighter is down: the death timer starts at 1 and counts up; past 90
      the game ends and the result is reported. Nothing else moves. */
  function DeathFrame(w: World, cfg: Config): World
  {
    var t := (if w.deathTimer == 0 then 1 else w.deathTimer) + 1;
    if t > 90 then w.(deathTimer := t, gameEnded := true, results := w.results + [ResultOf(cfg, w.duel)])
    else w.(deathTimer := t)
  }

  // ---- the phases of a live frame ----

  /** The clock ticks and the screen shake decays by a tenth. */
  function Clock(w: World): World
  {
    var s := w.duel.screenShake;
    w.(time := w.time + 1, duel := w.duel.(screenShake := if s > 0.0 then s * 0.9 else s))
  }

  /** Every 600 frames a power-up of an allowed kind appears. */
  function SpawnStep(w: World, cfg: Config, input: Input): World
    requires InputOk(input)
  {
    if w.time % 600 == 0 then Spawn(w, cfg, input) else w
  }

  /** spawnPowerUp on the state. */
  function Spawn(w: World, cfg: Config, input: Input): World
    requires InputOk(input)
  {
    match Spawned(cfg.allowedPowerUps, input.pick, input.rx, input.ry)
    case None => w
    case Some(p) => w.(powerups := w.powerups + [p])
  }

  function HoleStep(w: World, time: int, m: MathLib): World
    requires m.Valid()
  {
    var r := HolePass(w.holes, w.duel, time, m);
    w.(holes := r.0, duel := r.1)
  }

  function ManageStep(w: World): World
  {
    w.(duel := w.duel.(p1 := Managed(w.duel.p1, w.time), p2 := Managed(w.duel.p2, w.time)))
  }

  /** The arrow or WASD keys as a direction; down wins over up and right over left. */
  function KeyAxis(k: Keys): (r: (real, real))
    ensures r.0 in {-1.0, 0.0, 1.0} && r.1 in {-1.0, 0.0, 1.0}
  {
    var moveY := if k.arrowDown || k.keyS then 1.0 else if k.arrowUp || k.keyW then -1.0 else 0.0;
    var moveX := if k.arrowRight || k.keyD then 1.0 else if k.arrowLeft || k.keyA then -1.0 else 0.0;
    (moveX, moveY)
  }

  /** `Math.max(r, Math.min(extent - r, v))`. */
  function Clamp(r: real, extent: real, v: real): real
  {
    ClampTo(r, extent - r, v)
  }

  /** The key direction scaled to unit length when it is not zero. */
  function Heading(k: Keys, m: MathLib): (real, real)
  {
    var (mx, my) := KeyAxis(k);
    var len := m.sqrt(mx * mx + my * my);
    if (mx != 0.0 || my != 0.0) && len > 0.0 then (mx / len, my / len) else (mx, my)
  }

  /** Player one's movement: the key direction, normalised, accelerates by speed times 0.2,
      velocity is damped to 0.85, and the position is clamped to the arena. */
  function Steered(f: Fighter, k: Keys, m: MathLib): Fighter
  {
    Pushed(f, Heading(k, m))
  }

  /** One movement step along the heading `h`. */
  function Pushed(f: Fighter, h: (real, real)): Fighter
  {
    var vx := (f.vx + h.0 * f.speed * 0.2) * 0.85;
    var vy := (f.vy + h.1 * f.speed * 0.2) * 0.85;
    f.(vx := vx, vy := vy,
       x := Clamp(f.radius, Width, f.x + vx),
       y := Clamp(f.radius, Height, f.y + vy))
  }

  /** With an exact square root, each component of the heading lies in [-1, 1] whatever
      the keys: a pressed direction is divided by a length of at least 1. */
  lemma HeadingUnit(k: Keys, m: MathLib)
    requires m.ExactSqrt()
    ensures -1.0 <= Heading(k, m).0 <= 1.0 && -1.0 <= Heading(k, m).1 <= 1.0
  {
    var a := KeyAxis(k);
    var sq := a.0 * a.0 + a.1 * a.1;
    assert 0.0 <= sq;
    var len := m.sqrt(sq);
    if a.0 != 0.0 || a.1 != 0.0 {
      Normalised(a.0, a.1, len);
    }
  }

  /** Dividing a non-zero key direction by its length. */
  lemma Normalised(mx: real, my: real, len: real)
    requires mx == -1.0 || mx == 0.0 || mx == 1.0
    requires my == -1.0 || my == 0.0 || my == 1.0
    requires mx != 0.0 || my != 0.0
    requires 0.0 <= len && len * len == mx * mx + my * my
    ensures len >= 1.0
    ensures -1.0 <= mx / len <= 1.0 && -1.0 <= my / len <= 1.0
  {
    assert len * len >= 1.0;
    AtLeastOne(len);
    Shrunk(mx, len);
    Shrunk(my, len);
  }

  lemma AtLeastOne(len: real)
    requires 0.0 <= len && len * len >= 1.0
    ensures len >= 1.0
  {
    assert (len - 1.0) * (len + 1.0) == len * len - 1.0;
    NonNegativeFactor(len - 1.0, len + 1.0);
  }

  lemma NonNegativeFactor(a: real, b: real)
    requires b > 0.0 && a * b >= 0.0
    ensures a >= 0.0
  {
  }

  lemma Shrunk(a: real, l: real)
    requires -1.0 <= a <= 1.0 && l >= 1.0
    ensures -1.0 <= a / l <= 1.0
  {
    assert (a / l) * l == a;
  }

  /** The velocity bound 17/15 times the speed, the fixed point of accelerating by a fifth of
      the speed and damping to 0.85, is kept by every movement step. */
  predicate Drifting(f: Fighter)
  {
    0.0 <= f.speed
    && -(17.0 / 15.0) * f.speed <= f.vx <= (17.0 / 15.0) * f.speed
    && -(17.0 / 15.0) * f.speed <= f.vy <= (17.0 / 15.0) * f.speed
  }

  lemma SteeredBounded(f: Fighter, k: Keys, m: MathLib)
    requires m.ExactSqrt() && Drifting(f)
    ensures Drifting(Steered(f, k, m)) && Steered(f, k, m).speed == f.speed
  {
    HeadingUnit(k, m);
    PushedWithin(f, Heading(k, m));
  }

  lemma PushedWithin(f: Fighter, h: (real, real))
    requires Drifting(f)
    requires -1.0 <= h.0 <= 1.0 && -1.0 <= h.1 <= 1.0
    ensures Drifting(Pushed(f, h)) && Pushed(f, h).speed == f.speed
  {
    DampedBounded(f.vx, h.0, f.speed);
    DampedBounded(f.vy, h.1, f.speed);
  }

  lemma DampedBounded(v: real, h: real, s: real)
    requires 0.0 <= s && -1.0 <= h <= 1.0
    requires -(17.0 / 15.0) * s <= v <= (17.0 / 15.0) * s
    ensures -(17.0 / 15.0) * s <= (v + h * s * 0.2) * 0.85 <= (17.0 / 15.0) * s
  {
    assert -s <= h * s <= s by {
      if h >= 0.0 { assert h * s <= 1.0 * s; } else { assert h * s >= (-1.0) * s; }
    }
  }

  /** n frames of the same keys. */
  function SteeredFor(f: Fighter, k: Keys, m: MathLib, n: nat): Fighter
    decreases n
  {
    if n == 0 then f else SteeredFor(Steered(f, k, m), k, m, n - 1)
  }

  /** From rest, holding the same keys for any number of frames never takes a fighter's
      velocity past 17/15 of its speed. */
  lemma {:induction false} HeldKeysBounded(f: Fighter, k: Keys, m: MathLib, n: nat)
    requires m.ExactSqrt() && Drifting(f)
    ensures Drifting(SteeredFor(f, k, m, n)) && SteeredFor(f, k, m, n).speed == f.speed
    decreases n
  {
    if n > 0 {
      SteeredBounded(f, k, m);
      HeldKeysBounded(Steered(f, k, m), k, m, n - 1);
    }
  }

  function MoveStep(w: World, k: Keys, m: MathLib): World
  {
    w.(duel := w.duel.(p1 := Steered(w.duel.p1, k, m)))
  }

  /** Player one's gun: the cooldown counts down, and Space with no cooldown fires a
      10-wide shot from the rim toward the aim, at the prop velocity, for
      (8 + 0.8 power) times the damage multiplier; the cooldown is then 15 - min(10, speed).
      The result is player one and the shots to push. */
  function Gun(d: Duel, cfg: Config, input: Input, dm: real, m: MathLib): (r: (Fighter, seq<Bullet>))
  {
    var f := d.p1;
    var cd := if f.cooldown > 0 then f.cooldown - 1 else f.cooldown;
    if input.keys.space && cd <= 0 then
      var angle := AimAngle(P1, cfg.aimMode, d, input.mouseX, input.mouseY, m);
      var vx := m.cos(angle);
      var vy := m.sin(angle);
      var v := cfg.bulletVelocity;
      var shot := Bullet(f.x + vx * f.radius, f.y + vy * f.radius, vx * v, vy * v, P1,
                         (8.0 + (cfg.p1.stats.power as real) * 0.8) * dm, 10.0, false, Plain);
      (f.(cooldown := 15 - MinInt(10, cfg.p1.stats.speed)), [shot])
    else
      (f.(cooldown := cd), [])
  }

  /** The gun fires at most once a frame, only on Space with the cooldown at most 1 before
      the frame, and a shot rests it for 15 - min(10, speed) frames, never fewer than 5;
      without a shot the cooldown just counts down. Nothing but the cooldown of player one
      changes, and the shot is player one's plain bullet. */
  lemma GunCadence(d: Duel, cfg: Config, input: Input, dm: real, m: MathLib)
    ensures var r := Gun(d, cfg, input, dm, m);
      && |r.1| <= 1
      && (|r.1| == 1 <==> input.keys.space && d.p1.cooldown <= 1)
      && (|r.1| == 1 ==> r.0.cooldown == 15 - MinInt(10, cfg.p1.stats.speed) >= 5
                         && r.1[0].owner == P1 && !r.1[0].isSpecial && r.1[0].logic == Plain)
      && (|r.1| == 0 ==> r.0.cooldown == (if d.p1.cooldown > 0 then d.p1.cooldown - 1 else d.p1.cooldown))
      && r.0 == d.p1.(cooldown := r.0.cooldown)
  {
  }

  function FireStep(w: World, cfg: Config, input: Input, dm: real, m: MathLib): World
  {
    var r := Gun(w.duel, cfg, input, dm, m);
    w.(duel := w.duel.(p1 := r.0), bullets := w.bullets + r.1)
  }

  /** fireSpecial for the given side, with its ability id and aim. */
  function SpecialStep(w: World, cfg: Config, side: Side, input: Input, dm: real, m: MathLib): World
  {
    var id := AbilityOf(side, cfg.p1.specialId, cfg.p2.specialId);
    var angle := AimAngle(side, cfg.aimMode, w.duel, input.mouseX, input.mouseY, m);
    var r := Cast(w.duel, w.bullets, side, id, angle, dm, m);
    w.(duel := r.0, bullets := r.1)
  }

  /** The AI's movement: it closes in along the line to player one beyond 350 pixels, and
      weaves on the clock otherwise; damping 0.9, then the clamp. */
  function Chased(f: Fighter, target: Fighter, time: int, m: MathLib): Fighter
  {
    var dx := target.x - f.x;
    var dy := target.y - f.y;
    var far := Beyond(dx, dy, 350.0);
    var angle := m.atan2(dy, dx);
    var vx := (f.vx + (if far then m.cos(angle) * f.speed * 0.1 else m.sin((time as real) * 0.05) * f.speed * 0.15)) * 0.9;
    var vy := (f.vy + (if far then m.sin(angle) * f.speed * 0.1 else m.cos((time as real) * 0.03) * f.speed * 0.15)) * 0.9;
    f.(vx := vx, vy := vy,
       x := Clamp(f.radius, Width, f.x + vx),
       y := Clamp(f.radius, Height, f.y + vy))
  }

  function SteerStep(w: World, m: MathLib): World
  {
    w.(duel := w.duel.(p2 := Chased(w.duel.p2, w.duel.p1, w.time, m)))
  }

  /** The i-th shot of the AI's ring: angle i/8 of a turn, speed 5, width 7. */
  function RingAngle(i: int, m: MathLib): real
  {
    ((i as real) / 8.0) * m.pi * 2.0
  }

  function RingShot(f: Fighter, dmg: real, i: int, m: MathLib): Bullet
  {
    var angle := RingAngle(i, m);
    Bullet(f.x, f.y, m.cos(angle) * 5.0, m.sin(angle) * 5.0, P2, dmg, 7.0, false, Plain)
  }

  /** The first n shots of the ring, in firing order. */
  function Ring(f: Fighter, dmg: real, n: nat, m: MathLib): (r: seq<Bullet>)
    ensures |r| == n
    ensures forall i :: 0 <= i < n ==> r[i] == RingShot(f, dmg, i, m)
  {
    if n == 0 then [] else Ring(f, dmg, n - 1, m) + [RingShot(f, dmg, n - 1, m)]
  }

  /** The AI's gun: while cooling down it only counts down; otherwise it deals
      (5 + 0.6 power) times its multiplier, as one aimed shot (speed 7, width 8, cooldown 35)
      in the first 120 frames of every 250, and as a ring of 8 shots at 0.8 of that
      (cooldown 90) in the rest. The result is player two and the shots to push. */
  function BossGun(d: Duel, cfg: Config, dm: real, time: int, m: MathLib): (r: (Fighter, seq<Bullet>))
  {
    var f := d.p2;
    if f.cooldown > 0 then (f.(cooldown := f.cooldown - 1), [])
    else
      var bossDmg := (5.0 + (cfg.p2.stats.power as real) * 0.6) * dm;
      if time % 250 < 120 then
        var t := d.p1;
        var angle := m.atan2(t.y - f.y, t.x - f.x);
        (f.(cooldown := 35), [Bullet(f.x, f.y, m.cos(angle) * 7.0, m.sin(angle) * 7.0, P2, bossDmg, 8.0, false, Plain)])
      else
        (f.(cooldown := 90), Ring(f, bossDmg * 0.8, 8, m))
  }

  function BossFireStep(w: World, cfg: Config, dm: real, m: MathLib): World
  {
    var r := BossGun(w.duel, cfg, dm, w.time, m);
    w.(duel := w.duel.(p2 := r.0), bullets := w.bullets + r.1)
  }

  function BulletStep(w: World, s1: Status, s2: Status): World
  {
    var r := Pass(w.bullets, w.duel, s1, s2);
    w.(bullets := r.kept, duel := r.duel)
  }

  function PickupStep(w: World): World
  {
    var r := Sweep(w.powerups, Board(w.duel, w.holes));
    w.(powerups := r.0, duel := r.1.duel, holes := r.1.holes)
  }

  /** The statuses the effect manager reports, from the fighters it has just updated. */
  function StatusPair(w: World): (Status, Status)
  {
    (StatusOf(w.duel.p1.effects), StatusOf(w.duel.p2.effects))
  }

  /** The phases up to and including the effect manager. */
  function Prelude(w: World, cfg: Config, input: Input, m: MathLib): World
    requires InputOk(input) && m.Valid()
  {
    var w1 := SpawnStep(Clock(w), cfg, input);
    ManageStep(HoleStep(w1, w1.time, m))
  }

  /** Player one's phases: movement, gun, and special on E with a full charge. */
  function PlayerPhase(w: World, cfg: Config, input: Input, dm: real, m: MathLib): World
  {
    var w1 := FireStep(MoveStep(w, input.keys, m), cfg, input, dm, m);
    if input.keys.keyE && w1.duel.p1.specialCharge >= 100 then SpecialStep(w1, cfg, P1, input, dm, m) else w1
  }

  /** The AI's phases: steering, gun, and special as soon as the charge is full. */
  function BossPhase(w: World, cfg: Config, input: Input, dm: real, m: MathLib): World
  {
    var w1 := BossFireStep(SteerStep(w, m), cfg, dm, m);
    if w1.duel.p2.specialCharge >= 100 then SpecialStep(w1, cfg, P2, input, dm, m) else w1
  }

  /** updateGameLogic: the death countdown, or one live frame in the source's order. */
  function Frame(w: World, cfg: Config, input: Input, m: MathLib): World
    requires InputOk(input) && m.Valid()
  {
    if Dying(w.duel) then DeathFrame(w, cfg)
    else
      var w1 := Prelude(w, cfg, input, m);
      var (s1, s2) := StatusPair(w1);
      var w2 := BossPhase(PlayerPhase(w1, cfg, input, s1.damageMult, m), cfg, input, s2.damageMult, m);
      PickupStep(BulletStep(w2, s1, s2))
  }

  /** animate: no update once the game has ended or while paused. */
  function Animate(w: World, paused: bool, cfg: Config, input: Input, m: MathLib): World
    requires InputOk(input) && m.Valid()
  {
    if w.gameEnded || paused then w else Frame(w, cfg, input, m)
  }

  // ---- what frames guarantee ----

  /** While a fighter is down, a frame moves, fires and damages nothing: only the death timer,
      the ended flag and the reported results change. */
  lemma DownedFreezesPlay(w: World, cfg: Config, input: Input, m: MathLib)
    requires InputOk(input) && m.Valid() && Dying(w.duel)
    ensures var r := Frame(w, cfg, input, m);
      r == w.(deathTimer := r.deathTimer, gameEnded := r.gameEnded, results := r.results)
  {
  }

  /** The bookkeeping every reachable state satisfies: the death timer is 0 until a fighter
      is down and stops at 91, the game has ended exactly when it passed 90, and the result
      has been reported once then and never before. */
  predicate Settled(w: World)
  {
    && 0 <= w.deathTimer <= 91
    && (w.deathTimer > 0 ==> Dying(w.duel))
    && (w.gameEnded <==> w.deathTimer > 90)
    && |w.results| == (if w.gameEnded then 1 else 0)
  }

  lemma InitialSettled(cfg: Config)
    ensures Settled(Initial(cfg))
  {
  }

  /** Special charge in [0, 100] and the screen shake in [0, 20]. */
  predicate Bounded(d: Duel)
  {
    0 <= d.p1.specialCharge <= 100 && 0 <= d.p2.specialCharge <= 100 && 0.0 <= d.screenShake <= 20.0
  }

  /** Casting a special leaves both charges and the shake within their bounds. */
  lemma SpecialBounded(w: World, cfg: Config, side: Side, input: Input, dm: real, m: MathLib)
    requires Bounded(w.duel)
    ensures Bounded(SpecialStep(w, cfg, side, input, dm, m).duel)
  {
  }

  lemma PreludeBounded(w: World, cfg: Config, input: Input, m: MathLib)
    requires InputOk(input) && m.Valid() && Bounded(w.duel)
    ensures Bounded(Prelude(w, cfg, input, m).duel)
  {
    var w0 := SpawnStep(Clock(w), cfg, input);
    HolesKeepCharge(w0.holes, w0.duel, w0.time, m);
  }

  lemma PlayerPhaseBounded(w: World, cfg: Config, input: Input, dm: real, m: MathLib)
    requires Bounded(w.duel)
    ensures Bounded(PlayerPhase(w, cfg, input, dm, m).duel)
  {
    var v := FireStep(MoveStep(w, input.keys, m), cfg, input, dm, m);
    assert Bounded(v.duel);
    SpecialBounded(v, cfg, P1, input, dm, m);
  }

  lemma BossPhaseBounded(w: World, cfg: Config, input: Input, dm: real, m: MathLib)
    requires Bounded(w.duel)
    ensures Bounded(BossPhase(w, cfg, input, dm, m).duel)
  {
    var v := BossFireStep(SteerStep(w, m), cfg, dm, m);
    assert Bounded(v.duel);
    SpecialBounded(v, cfg, P2, input, dm, m);
  }

  lemma ResolutionBounded(w: World, s1: Status, s2: Status)
    requires Bounded(w.duel)
    ensures Bounded(PickupStep(BulletStep(w, s1, s2)).duel)
  {
    PassKeepsBounds(w.bullets, w.duel, s1, s2);
    var v := BulletStep(w, s1, s2);
    SweepKeepsCharge(v.powerups, Board(v.duel, v.holes));
  }

  /** Every frame keeps the special charges in [0, 100] and the screen shake in [0, 20]. */
  lemma FrameBounded(w: World, cfg: Config, input: Input, m: MathLib)
    requires InputOk(input) && m.Valid() && Bounded(w.duel)
    ensures Bounded(Frame(w, cfg, input, m).duel)
  {
    if !Dying(w.duel) {
      var w1 := Prelude(w, cfg, input, m);
      PreludeBounded(w, cfg, input, m);
      var (s1, s2) := StatusPair(w1);
      var w2 := PlayerPhase(w1, cfg, input, s1.damageMult, m);
      PlayerPhaseBounded(w1, cfg, input, s1.damageMult, m);
      BossPhaseBounded(w2, cfg, input, s2.damageMult, m);
      ResolutionBounded(BossPhase(w2, cfg, input, s2.damageMult, m), s1, s2);
    }
  }

  /** Neither fighter runs two SPEED or two POWER pickup effects at once. */
  predicate NoStacking(d: Duel)
  {
    Unstacked(d.p1) && Unstacked(d.p2)
  }

  lemma PreludeNoStacking(w: World, cfg: Config, input: Input, m: MathLib)
    requires InputOk(input) && m.Valid() && NoStacking(w.duel)
    ensures NoStacking(Prelude(w, cfg, input, m).duel)
  {
    var w0 := SpawnStep(Clock(w), cfg, input);
    HolesKeepCharge(w0.holes, w0.duel, w0.time, m);
    var d := HoleStep(w0, w0.time, m).duel;
    ManagedUnstacked(d.p1, w0.time);
    ManagedUnstacked(d.p2, w0.time);
  }

  lemma SpecialNoStacking(w: World, cfg: Config, side: Side, input: Input, dm: real, m: MathLib)
    requires NoStacking(w.duel)
    ensures NoStacking(SpecialStep(w, cfg, side, input, dm, m).duel)
  {
    var id := AbilityOf(side, cfg.p1.specialId, cfg.p2.specialId);
    var angle := AimAngle(side, cfg.aimMode, w.duel, input.mouseX, input.mouseY, m);
    forall s: Side, k: PowerUpType
      ensures Count(Cast(w.duel, w.bullets, side, id, angle, dm, m).0.Get(s).effects, Pickup(k)) == Count(w.duel.Get(s).effects, Pickup(k))
    {
      CastKeepsPickups(w.duel, w.bullets, side, id, angle, dm, m, s, k);
    }
    assert P1.Other() == P2;
  }

  lemma ResolutionNoStacking(w: World, s1: Status, s2: Status)
    requires NoStacking(w.duel)
    ensures NoStacking(PickupStep(BulletStep(w, s1, s2)).duel)
  {
    PassKeepsPickups(w.bullets, w.duel, s1, s2, P1, Speed);
    PassKeepsPickups(w.bullets, w.duel, s1, s2, P1, Power);
    PassKeepsPickups(w.bullets, w.duel, s1, s2, P2, Speed);
    PassKeepsPickups(w.bullets, w.duel, s1, s2, P2, Power);
    var v := BulletStep(w, s1, s2);
    SweepUnstacked(v.powerups, Board(v.duel, v.holes));
  }

  lemma PlayerPhaseNoStacking(w: World, cfg: Config, input: Input, dm: real, m: MathLib)
    requires NoStacking(w.duel)
    ensures NoStacking(PlayerPhase(w, cfg, input, dm, m).duel)
  {
    var v := FireStep(MoveStep(w, input.keys, m), cfg, input, dm, m);
    assert v.duel.p1.effects == w.duel.p1.effects && v.duel.p2 == w.duel.p2;
    SpecialNoStacking(v, cfg, P1, input, dm, m);
  }

  lemma BossPhaseNoStacking(w: World, cfg: Config, input: Input, dm: real, m: MathLib)
    requires NoStacking(w.duel)
    ensures NoStacking(BossPhase(w, cfg, input, dm, m).duel)
  {
    var v := BossFireStep(SteerStep(w, m), cfg, dm, m);
    assert NoStacking(v.duel);
    SpecialNoStacking(v, cfg, P2, input, dm, m);
  }

  /** Every frame keeps at most one SPEED and one POWER effect per fighter: a pickup
      refreshes the running one, ageing only removes entries, and no ability or bullet adds
      a pickup effect. */
  lemma FrameNoStacking(w: World, cfg: Config, input: Input, m: MathLib)
    requires InputOk(input) && m.Valid() && NoStacking(w.duel)
    ensures NoStacking(Frame(w, cfg, input, m).duel)
  {
    if !Dying(w.duel) {
      var w1 := Prelude(w, cfg, input, m);
      PreludeNoStacking(w, cfg, input, m);
      var (s1, s2) := StatusPair(w1);
      PlayerPhaseNoStacking(w1, cfg, input, s1.damageMult, m);
      var w2 := PlayerPhase(w1, cfg, input, s1.damageMult, m);
      BossPhaseNoStacking(w2, cfg, input, s2.damageMult, m);
      ResolutionNoStacking(BossPhase(w2, cfg, input, s2.damageMult, m), s1, s2);
    }
  }

  /** A frame that is let through by animate keeps the bookkeeping. */
  lemma AnimateSettled(w: World, paused: bool, cfg: Config, input: Input, m: MathLib)
    requires InputOk(input) && m.Valid() && Settled(w)
    ensures Settled(Animate(w, paused, cfg, input, m))
  {
    if !w.gameEnded && !paused && !Dying(w.duel) {
      LiveFrameBookkeeping(w, cfg, input, m);
    }
  }

  /** A live frame advances the clock by one and leaves the death bookkeeping alone. */
  lemma LiveFrameBookkeeping(w: World, cfg: Config, input: Input, m: MathLib)
    requires InputOk(input) && m.Valid() && !Dying(w.duel)
    ensures var r := Frame(w, cfg, input, m);
      r.time == w.time + 1 && r.deathTimer == w.deathTimer && r.gameEnded == w.gameEnded && r.results == w.results
  {
    var w1 := Prelude(w, cfg, input, m);
    var (s1, s2) := StatusPair(w1);
    var w2 := PlayerPhase(w1, cfg, input, s1.damageMult, m);
    var w3 := BossPhase(w2, cfg, input, s2.damageMult, m);
    assert w1.time == w.time + 1 && w1.deathTimer == w.deathTimer && w1.gameEnded == w.gameEnded && w1.results == w.results;
    assert w2.time == w1.time && w2.deathTimer == w1.deathTimer && w2.gameEnded == w1.gameEnded && w2.results == w1.results;
    assert w3.time == w2.time && w3.deathTimer == w2.deathTimer && w3.gameEnded == w2.gameEnded && w3.results == w2.results;
  }

  /** A run of animation frames. */
  function Run(w: World, paused: bool, cfg: Config, inputs: seq<Input>, m: MathLib): World
    requires forall i :: 0 <= i < |inputs| ==> InputOk(inputs[i])
    requires m.Valid()
    decreases |inputs|
  {
    if inputs == [] then w else Run(Animate(w, paused, cfg, inputs[0], m), paused, cfg, inputs[1..], m)
  }

  /** The death countdown: from the first frame a fighter is down, the game ends on the 90th
      frame, reports its result exactly once with the winner rule, and then stays put. */
  lemma {:induction false} Countdown(w: World, cfg: Config, inputs: seq<Input>, m: MathLib)
    requires forall i :: 0 <= i < |inputs| ==> InputOk(inputs[i])
    requires m.Valid()
    requires Dying(w.duel) && w.deathTimer == 0 && !w.gameEnded && w.results == []
    ensures var r := Run(w, false, cfg, inputs, m);
      && r.gameEnded == (|inputs| >= 90)
      && r.deathTimer == (if |inputs| >= 90 then 91 else |inputs| + 1 - (if |inputs| == 0 then 1 else 0))
      && r.results == (if |inputs| >= 90 then [ResultOf(cfg, w.duel)] else [])
      && r.duel == w.duel && r.bullets == w.bullets && r.time == w.time
  {
    if inputs != [] {
      var w1 := Animate(w, false, cfg, inputs[0], m);
      assert w1 == w.(deathTimer := 2);
      CountingDown(w1, cfg, inputs[1..], m);
    }
  }

  /** The countdown from timer value t >= 2 (the state after the first downed frame). */
  lemma {:induction false} CountingDown(w: World, cfg: Config, inputs: seq<Input>, m: MathLib)
    requires forall i :: 0 <= i < |inputs| ==> InputOk(inputs[i])
    requires m.Valid()
    requires Dying(w.duel) && 2 <= w.deathTimer <= 91 && w.gameEnded == (w.deathTimer > 90)
    requires w.results == (if w.gameEnded then [ResultOf(cfg, w.duel)] else [])
    ensures var r := Run(w, false, cfg, inputs, m);
      var t := if w.deathTimer + |inputs| > 91 then 91 else w.deathTimer + |inputs|;
      && r.deathTimer == t
      && r.gameEnded == (t > 90)
      && r.results == (if t > 90 then [ResultOf(cfg, w.duel)] else [])
      && r.duel == w.duel && r.bullets == w.bullets && r.time == w.time
    decreases |inputs|
  {
    if inputs != [] {
      var w1 := Animate(w, false, cfg, inputs[0], m);
      if w.gameEnded {
        assert w1 == w;
      } else {
        assert w1.duel == w.duel && w1.deathTimer == w.deathTimer + 1;
      }
      CountingDown(w1, cfg, inputs[1..], m);
    }
  }

  /** A paused game does not change, whatever the input. */
  lemma {:induction false} PausedHolds(w: World, cfg: Config, inputs: seq<Input>, m: MathLib)
    requires forall i :: 0 <= i < |inputs| ==> InputOk(inputs[i])
    requires m.Valid()
    ensures Run(w, true, cfg, inputs, m) == w
  {
    if inputs != [] {
      PausedHolds(w, cfg, inputs[1..], m);
    }
  }
}

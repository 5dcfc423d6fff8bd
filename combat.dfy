// The records of the arena simulation (components/GameCanvas.tsx) and the geometry
// they share.
module Combat {
  import opened Types

  /** The owner tag of bullets and black holes: 'p1' or 'p2'. */
  datatype Side = P1 | P2 {
    function Other(): (o: Side)
      ensures o != this
    {
      if this == P1 then P2 else P1
    }
  }

  /** The tag of an active effect: a pickup type, or one of the ability and debuff tags. */
  datatype EffectType = Pickup(kind: PowerUpType) | Freeze | Shield | Giant | Tough | GoldMode | Lovely

  /** An active effect with its remaining duration in frames. */
  datatype Effect = Effect(kind: EffectType, duration: int)

  /** `logicType`: absent on ordinary bullets. */
  datatype Logic = Plain | Fire | Ice

  datatype Bullet = Bullet(
    x: real, y: real, vx: real, vy: real,
    owner: Side,
    dmg: real,
    size: real,
    isSpecial: bool,
    logic: Logic)

  datatype PowerUp = PowerUp(x: real, y: real, kind: PowerUpType, radius: real, life: int, rotation: real)

  datatype Hole = Hole(x: real, y: real, life: int, owner: Side)

  /** The per-fighter part of the game state record. */
  datatype Fighter = Fighter(
    x: real, y: real,
    hp: real, maxHp: real,
    vx: real, vy: real,
    cooldown: int,
    radius: real, baseRadius: real,
    speed: real, baseSpeed: real,
    effects: seq<Effect>,
    hitFlash: int,
    specialCharge: int)

  /** What the effect manager hands to the rest of the frame. */
  datatype Status = Status(damageMult: real, damageTakenMult: real, isShielded: bool, isLovely: bool)

  /** Both fighters and the screen shake: the part of the state that combat changes. */
  datatype Duel = Duel(p1: Fighter, p2: Fighter, screenShake: real) {
    function Get(s: Side): Fighter { if s == P1 then p1 else p2 }

    function With(s: Side, f: Fighter): (d: Duel)
      ensures d.Get(s) == f && d.Get(s.Other()) == Get(s.Other()) && d.screenShake == screenShake
    {
      if s == P1 then this.(p1 := f) else this.(p2 := f)
    }
  }

  /** The canvas is fixed at 800 by 600. */
  const Width: real := 800.0
  const Height: real := 600.0

  /** The JavaScript Math functions the simulation calls; trigonometry and square roots are
      not computed by the model. */
  datatype MathLib = MathLib(
    sqrt: real -> real,
    atan2: (real, real) -> real,
    cos: real -> real,
    sin: real -> real,
    pi: real)
  {
    /** The one fact the model relies on: a square root is never negative. */
    ghost predicate Valid()
    {
      forall x :: 0.0 <= x ==> 0.0 <= sqrt(x)
    }

    /** A square root that is exact, as the real one is: results about lengths rest on it. */
    ghost predicate ExactSqrt()
    {
      forall x :: 0.0 <= x ==> 0.0 <= sqrt(x) && sqrt(x) * sqrt(x) == x
    }
  }

  /** `Math.sqrt(dx*dx + dy*dy) < r`, decided without the square root. */
  predicate Within(dx: real, dy: real, r: real)
  {
    r > 0.0 && dx * dx + dy * dy < r * r
  }

  /** `Math.sqrt(dx*dx + dy*dy) > r` for r >= 0, decided without the square root. */
  predicate Beyond(dx: real, dy: real, r: real)
    requires r >= 0.0
  {
    dx * dx + dy * dy > r * r
  }

  /** `Math.max(lo, Math.min(hi, v))`. */
  function ClampTo(lo: real, hi: real, v: real): (r: real)
    ensures lo <= r
    ensures lo <= hi ==> r <= hi
    ensures lo <= v <= hi ==> r == v
  {
    Max(lo, Min(hi, v))
  }

  /** JavaScript `n || d` on a number: zero falls back to d. */
  function OrDefault(n: real, d: real): real { if n == 0.0 then d else n }

  function Count(es: seq<Effect>, k: EffectType): nat
  {
    if es == [] then 0 else (if es[0].kind == k then 1 else 0) + Count(es[1..], k)
  }

  lemma {:induction false} CountAppend(a: seq<Effect>, b: seq<Effect>, k: EffectType)
    ensures Count(a + b, k) == Count(a, k) + Count(b, k)
  {
    if a == [] {
      assert a + b == b;
    } else {
      assert (a + b)[0] == a[0];
      assert (a + b)[1..] == a[1..] + b;
      CountAppend(a[1..], b, k);
    }
  }

  /** Every listed effect still has time left. */
  predicate AllLive(es: seq<Effect>)
  {
    forall i :: 0 <= i < |es| ==> es[i].duration >= 1
  }

  /** At most one SPEED and at most one POWER pickup effect runs on the fighter. */
  predicate Unstacked(f: Fighter)
  {
    Count(f.effects, Pickup(Speed)) <= 1 && Count(f.effects, Pickup(Power)) <= 1
  }
}

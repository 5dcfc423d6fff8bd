// The effect manager of the frame (`manageEffects` in components/GameCanvas.tsx): ages every
// active effect by one frame, drops the expired ones in place, and folds the survivors into
// the fighter's speed and radius and into the frame's damage multipliers.
module EffectManager {
  import opened Types
  import opened Combat

  function Pow(b: real, n: nat): real
  {
    if n == 0 then 1.0 else b * Pow(b, n - 1)
  }

  /** The part of one effect that survives a frame: its duration minus one, or nothing. */
  function Age(e: Effect): seq<Effect>
  {
    if e.duration - 1 <= 0 then [] else [Effect(e.kind, e.duration - 1)]
  }

  /** The effect list after one frame of ageing. */
  function Tick(es: seq<Effect>): (r: seq<Effect>)
    ensures |r| <= |es|
    ensures AllLive(r)
  {
    if es == [] then [] else Age(es[0]) + Tick(es[1..])
  }

  /** Effects of kind k that are still running after this frame's decrement. */
  function Lasting(es: seq<Effect>, k: EffectType): nat
  {
    if es == [] then 0 else (if es[0].kind == k && es[0].duration > 1 then 1 else 0) + Lasting(es[1..], k)
  }

  /** The damage multiplier for p POWER, g GIANT and s GOLD_MODE effects. */
  function Mult(p: nat, g: nat, s: nat): real
  {
    Pow(2.0, p) * Pow(1.5, g) * Pow(3.0, s)
  }

  /** The summary the frame hands on: 2 per POWER, 1.5 per GIANT and 3 per GOLD_MODE on damage
      dealt, 0.2 per TOUGH on damage taken, and the presence of a SHIELD or a LOVELY. */
  function StatusOf(live: seq<Effect>): Status
  {
    Status(
      damageMult := Mult(Count(live, Pickup(Power)), Count(live, Giant), Count(live, GoldMode)),
      damageTakenMult := Pow(0.2, Count(live, Tough)),
      isShielded := Count(live, Shield) > 0,
      isLovely := Count(live, Lovely) > 0)
  }

  /** Speed is rebuilt from `baseSpeed || 5`: 1.5 per SPEED, and 0.2 once when frozen. */
  function SpeedOf(baseSpeed: real, live: seq<Effect>): real
  {
    OrDefault(baseSpeed, 5.0) * Pow(1.5, Count(live, Pickup(Speed))) * (if Count(live, Freeze) > 0 then 0.2 else 1.0)
  }

  /** Radius is rebuilt from `baseRadius || 40`; any GIANT makes it twice baseRadius. */
  function RadiusOf(baseRadius: real, live: seq<Effect>): real
  {
    if Count(live, Giant) > 0 then baseRadius * 2.0 else OrDefault(baseRadius, 40.0)
  }

  /** n applications of `hp = Math.min(maxHp, hp + amount)`. */
  function HealTimes(hp: real, maxHp: real, amount: real, n: nat): real
  {
    if n == 0 then hp else Min(maxHp, HealTimes(hp, maxHp, amount, n - 1) + amount)
  }

  lemma CountCons(e: Effect, t: seq<Effect>, k: EffectType)
    ensures Count([e] + t, k) == (if e.kind == k then 1 else 0) + Count(t, k)
  {
    assert ([e] + t)[1..] == t;
  }

  lemma TickSuffix(es: seq<Effect>, i: nat)
    requires i < |es|
    ensures Tick(es[i..]) == Age(es[i]) + Tick(es[i + 1..])
  {
    assert es[i..][1..] == es[i + 1..];
  }

  // ---- properties of the ageing step ----

  /** Ageing works element by element, so it keeps the order of the survivors. */
  lemma {:induction false} TickAppend(a: seq<Effect>, b: seq<Effect>)
    ensures Tick(a + b) == Tick(a) + Tick(b)
  {
    if a == [] {
      assert a + b == b;
    } else {
      assert (a + b)[0] == a[0];
      assert (a + b)[1..] == a[1..] + b;
      TickAppend(a[1..], b);
    }
  }

  /** Exactly the effects with more than one frame left survive: an expired one is not counted. */
  lemma {:induction false} TickCount(es: seq<Effect>, k: EffectType)
    ensures Count(Tick(es), k) == Lasting(es, k)
  {
    if es != [] {
      TickCount(es[1..], k);
      CountAppend(Age(es[0]), Tick(es[1..]), k);
      if es[0].duration - 1 > 0 {
        CountCons(Effect(es[0].kind, es[0].duration - 1), [], k);
      }
    }
  }

  lemma {:induction false} LastingAtMost(es: seq<Effect>, k: EffectType)
    ensures Lasting(es, k) <= Count(es, k)
  {
    if es != [] {
      LastingAtMost(es[1..], k);
    }
  }

  /** Ageing never adds an effect of any kind. */
  lemma TickNeverAdds(es: seq<Effect>, k: EffectType)
    ensures Count(Tick(es), k) <= Count(es, k)
  {
    TickCount(es, k);
    LastingAtMost(es, k);
  }

  /** When nothing expires, every effect stays in place with one frame less. */
  lemma {:induction false} TickNoneExpire(es: seq<Effect>)
    requires forall i :: 0 <= i < |es| ==> es[i].duration >= 2
    ensures |Tick(es)| == |es|
    ensures forall i :: 0 <= i < |es| ==> Tick(es)[i] == Effect(es[i].kind, es[i].duration - 1)
  {
    if es != [] {
      TickNoneExpire(es[1..]);
    }
  }

  /** When every effect is on its last frame, the list empties. */
  lemma {:induction false} TickAllExpire(es: seq<Effect>)
    requires forall i :: 0 <= i < |es| ==> es[i].duration <= 1
    ensures Tick(es) == []
  {
    if es != [] {
      TickAllExpire(es[1..]);
    }
  }

  // ---- properties of the derived stats ----

  /** Healing by a non-negative amount any number of times never passes maxHp and is the
      capped sum. */
  lemma {:induction false} HealCapped(hp: real, maxHp: real, amount: real, n: nat)
    requires hp <= maxHp && amount >= 0.0
    ensures hp <= HealTimes(hp, maxHp, amount, n) <= maxHp
    ensures HealTimes(hp, maxHp, amount, n) == Min(maxHp, hp + amount * (n as real))
  {
    if n > 0 {
      HealCapped(hp, maxHp, amount, n - 1);
      var prev := hp + amount * ((n - 1) as real);
      assert hp + amount * (n as real) == prev + amount;
      assert HealTimes(hp, maxHp, amount, n) == Min(maxHp, Min(maxHp, prev) + amount);
    }
  }

  /** A second GIANT changes nothing: the radius is doubled once, not per entry. */
  lemma GiantDoublesOnce(baseRadius: real, live: seq<Effect>, d: int)
    requires Count(live, Giant) > 0
    ensures RadiusOf(baseRadius, live + [Effect(Giant, d)]) == RadiusOf(baseRadius, live) == 2.0 * baseRadius
  {
    CountAppend(live, [Effect(Giant, d)], Giant);
  }

  /** A GIANT on its last frame: the next frame's radius is back to baseRadius. */
  lemma GiantReverts(baseRadius: real, es: seq<Effect>)
    requires baseRadius != 0.0
    requires forall i :: 0 <= i < |es| && es[i].kind == Giant ==> es[i].duration <= 1
    ensures RadiusOf(baseRadius, Tick(es)) == baseRadius
  {
    TickCount(es, Giant);
    LastingNone(es, Giant);
  }

  lemma {:induction false} LastingNone(es: seq<Effect>, k: EffectType)
    requires forall i :: 0 <= i < |es| && es[i].kind == k ==> es[i].duration <= 1
    ensures Lasting(es, k) == 0
  {
    if es != [] {
      LastingNone(es[1..], k);
    }
  }

  /** Freezing multiplies speed by 0.2 once, whatever the number of FREEZE entries. */
  lemma FreezeOnce(baseSpeed: real, live: seq<Effect>, d: int)
    requires Count(live, Freeze) > 0
    ensures SpeedOf(baseSpeed, live + [Effect(Freeze, d)]) == SpeedOf(baseSpeed, live)
  {
    CountAppend(live, [Effect(Freeze, d)], Freeze);
    CountAppend(live, [Effect(Freeze, d)], Pickup(Speed));
  }

  // ---- one visited survivor, quantity by quantity ----

  function DamageMultOf(live: seq<Effect>): real { StatusOf(live).damageMult }

  lemma MultSteps(p: nat, g: nat, s: nat)
    ensures Mult(p + 1, g, s) == Mult(p, g, s) * 2.0
    ensures Mult(p, g + 1, s) == Mult(p, g, s) * 1.5
    ensures Mult(p, g, s + 1) == Mult(p, g, s) * 3.0
  {
    var a, b, c := Pow(2.0, p), Pow(1.5, g), Pow(3.0, s);
    assert Pow(2.0, p + 1) == 2.0 * a;
    assert Pow(1.5, g + 1) == 1.5 * b;
    assert Pow(3.0, s + 1) == 3.0 * c;
    Scale(a, b, c, 2.0);
    Scale(b, a, c, 1.5);
    Scale(c, a, b, 3.0);
  }

  lemma DamageMultStep(e: Effect, rest: seq<Effect>, m: real)
    requires m == DamageMultOf(rest)
    ensures DamageMultOf([e] + rest) ==
      if e.kind == Pickup(Power) then m * 2.0
      else if e.kind == Giant then m * 1.5
      else if e.kind == GoldMode then m * 3.0
      else m
  {
    CountCons(e, rest, Pickup(Power));
    CountCons(e, rest, Giant);
    CountCons(e, rest, GoldMode);
    MultSteps(Count(rest, Pickup(Power)), Count(rest, Giant), Count(rest, GoldMode));
  }

  /** Scaling one factor of a triple product scales the product. */
  lemma Scale(x: real, y: real, z: real, k: real)
    ensures (k * x) * y * z == (x * y * z) * k
    ensures y * (k * x) * z == (y * x * z) * k
    ensures y * z * (k * x) == (y * z * x) * k
  {
  }

  lemma TakenMultStep(e: Effect, rest: seq<Effect>, m: real)
    requires m == Pow(0.2, Count(rest, Tough))
    ensures Pow(0.2, Count([e] + rest, Tough)) == if e.kind == Tough then m * 0.2 else m
  {
    CountCons(e, rest, Tough);
  }

  lemma SpeedStep(e: Effect, rest: seq<Effect>, base: real, v: real)
    requires v == base * Pow(1.5, Count(rest, Pickup(Speed)))
    ensures base * Pow(1.5, Count([e] + rest, Pickup(Speed))) == if e.kind == Pickup(Speed) then v * 1.5 else v
  {
    CountCons(e, rest, Pickup(Speed));
    if e.kind == Pickup(Speed) {
      var p := Pow(1.5, Count(rest, Pickup(Speed)));
      assert base * (1.5 * p) == (base * p) * 1.5;
    }
  }

  lemma FlagSteps(e: Effect, rest: seq<Effect>)
    ensures (Count([e] + rest, Freeze) > 0) == (e.kind == Freeze || Count(rest, Freeze) > 0)
    ensures (Count([e] + rest, Shield) > 0) == (e.kind == Shield || Count(rest, Shield) > 0)
    ensures (Count([e] + rest, Lovely) > 0) == (e.kind == Lovely || Count(rest, Lovely) > 0)
    ensures Count([e] + rest, Lovely) == if e.kind == Lovely then Count(rest, Lovely) + 1 else Count(rest, Lovely)
    ensures (Count([e] + rest, Giant) > 0) == (e.kind == Giant || Count(rest, Giant) > 0)
  {
    CountCons(e, rest, Freeze);
    CountCons(e, rest, Shield);
    CountCons(e, rest, Lovely);
    CountCons(e, rest, Giant);
  }

  /** The locals of one manageEffects call while it walks the list; `speed` is before the
      final freeze factor. */
  datatype Tally = Tally(
    speed: real, radius: real, hp: real,
    damageMult: real, damageTakenMult: real,
    isFrozen: bool, isShielded: bool, isLovely: bool)

  /** What the walk has accumulated once it has visited the survivors `done`. */
  function TallyOf(f: Fighter, time: int, done: seq<Effect>): Tally
  {
    Tally(
      speed := OrDefault(f.baseSpeed, 5.0) * Pow(1.5, Count(done, Pickup(Speed))),
      radius := RadiusOf(f.baseRadius, done),
      hp := if time % 10 == 0 then HealTimes(f.hp, f.maxHp, 2.0, Count(done, Lovely)) else f.hp,
      damageMult := DamageMultOf(done),
      damageTakenMult := Pow(0.2, Count(done, Tough)),
      isFrozen := Count(done, Freeze) > 0,
      isShielded := Count(done, Shield) > 0,
      isLovely := Count(done, Lovely) > 0)
  }

  /** Folding one more survivor into the tally, field by field. */
  lemma TallyStep(f: Fighter, time: int, effect: Effect, done: seq<Effect>, t: Tally)
    requires t == TallyOf(f, time, done)
    ensures TallyOf(f, time, [effect] + done) == Tally(
      speed := if effect.kind == Pickup(Speed) then t.speed * 1.5 else t.speed,
      radius := if effect.kind == Giant then f.baseRadius * 2.0 else t.radius,
      hp := if effect.kind == Lovely && time % 10 == 0 then Min(f.maxHp, t.hp + 2.0) else t.hp,
      damageMult :=
        if effect.kind == Pickup(Power) then t.damageMult * 2.0
        else if effect.kind == Giant then t.damageMult * 1.5
        else if effect.kind == GoldMode then t.damageMult * 3.0
        else t.damageMult,
      damageTakenMult := if effect.kind == Tough then t.damageTakenMult * 0.2 else t.damageTakenMult,
      isFrozen := t.isFrozen || effect.kind == Freeze,
      isShielded := t.isShielded || effect.kind == Shield,
      isLovely := t.isLovely || effect.kind == Lovely)
  {
    DamageMultStep(effect, done, t.damageMult);
    TakenMultStep(effect, done, t.damageTakenMult);
    SpeedStep(effect, done, OrDefault(f.baseSpeed, 5.0), t.speed);
    FlagSteps(effect, done);
  }

  /** The body of the loop for an effect that is still running. */
  method Absorb(f: Fighter, time: int, effect: Effect, ghost done: seq<Effect>, t: Tally) returns (u: Tally)
    requires t == TallyOf(f, time, done)
    ensures u == TallyOf(f, time, [effect] + done)
  {
    TallyStep(f, time, effect, done, t);
    u := t;
    if effect.kind == Pickup(Speed) {
      u := u.(speed := u.speed * 1.5);
    } else if effect.kind == Pickup(Power) {
      u := u.(damageMult := u.damageMult * 2.0);
    } else if effect.kind == Freeze {
      u := u.(isFrozen := true);
    } else if effect.kind == Shield {
      u := u.(isShielded := true);
    } else if effect.kind == Tough {
      u := u.(damageTakenMult := u.damageTakenMult * 0.2);
    } else if effect.kind == Giant {
      u := u.(radius := f.baseRadius * 2.0, damageMult := u.damageMult * 1.5);
    } else if effect.kind == GoldMode {
      u := u.(damageMult := u.damageMult * 3.0);
    } else if effect.kind == Lovely {
      u := u.(isLovely := true);
      if time % 10 == 0 {
        u := u.(hp := Min(f.maxHp, u.hp + 2.0));
      }
    }
  }

  /** What the walk has accumulated, read back as the frame's results. */
  lemma TallyResults(f: Fighter, time: int, live: seq<Effect>, t: Tally)
    requires t == TallyOf(f, time, live)
    ensures StatusOf(live) == Status(t.damageMult, t.damageTakenMult, t.isShielded, t.isLovely)
    ensures SpeedOf(f.baseSpeed, live) == if t.isFrozen then t.speed * 0.2 else t.speed
  {
  }

  /** The list half of one step of the backward loop of manageEffects at index `i`:
      decrements the entry and splices it out in place once it has expired. */
  method AgeAt(ghost es: seq<Effect>, i: nat, effects: seq<Effect>, ghost done: seq<Effect>)
    returns (next: seq<Effect>, effect: Effect)
    requires i < |es|
    requires effects == es[..i + 1] + done
    ensures effect == es[i].(duration := es[i].duration - 1)
    ensures next == es[..i] + ((if effect.duration <= 0 then [] else [effect]) + done)
  {
    assert es[..i + 1] == es[..i] + [es[i]];
    Around(es[..i], es[i], done, es[i].(duration := es[i].duration - 1));
    effect := effects[i];
    effect := effect.(duration := effect.duration - 1);
    next := effects[i := effect];
    assert next == es[..i] + [effect] + done;
    if effect.duration <= 0 {
      next := next[..i] + next[i + 1..];
    } else {
      assert next == es[..i] + ([effect] + done);
    }
  }

  /** The backward loop of manageEffects: decrements every duration, splices out the
      expired entries in place and folds the others into the tally. */
  method WalkEffects(f: Fighter, time: int, t0: Tally) returns (effects: seq<Effect>, t: Tally)
    requires t0 == TallyOf(f, time, [])
    ensures effects == Tick(f.effects)
    ensures t == TallyOf(f, time, effects)
  {
    t := t0;
    effects := f.effects;
    var i := |effects|;
    ghost var done: seq<Effect> := [];
    while i > 0
      invariant 0 <= i <= |f.effects|
      invariant done == Tick(f.effects[i..])
      invariant effects == f.effects[..i] + done
      invariant t == TallyOf(f, time, done)
    {
      i := i - 1;
      var effect;
      effects, effect := AgeAt(f.effects, i, effects, done);
      TickSuffix(f.effects, i);
      assert Age(f.effects[i]) == if effect.duration <= 0 then [] else [effect];
      if effect.duration > 0 {
        t := Absorb(f, time, effect, done, t);
        done := [effect] + done;
      } else {
        assert [] + done == done;
      }
    }
    assert f.effects[0..] == f.effects && f.effects[..0] == [];
  }

  /** The fighter after the effect manager, field by field. */
  function Managed(f: Fighter, time: int): Fighter
  {
    var live := Tick(f.effects);
    f.(effects := live,
       speed := SpeedOf(f.baseSpeed, live),
       radius := RadiusOf(f.baseRadius, live),
       hp := if time % 10 == 0 then HealTimes(f.hp, f.maxHp, 2.0, Count(live, Lovely)) else f.hp,
       hitFlash := if f.hitFlash > 0 then f.hitFlash - 1 else f.hitFlash)
  }

  /** The effect manager never stacks a pickup effect. */
  lemma ManagedUnstacked(f: Fighter, time: int)
    requires Unstacked(f)
    ensures Unstacked(Managed(f, time))
  {
    TickNeverAdds(f.effects, Pickup(Speed));
    TickNeverAdds(f.effects, Pickup(Power));
  }

  /** manageEffects: resets speed and radius to their bases, ages the list and folds the
      survivors. Speed, radius and the multipliers depend only on the base values and the
      surviving effects, never on last frame's derived values. */
  method ManageEffects(f: Fighter, time: int) returns (g: Fighter, st: Status)
    ensures g.effects == Tick(f.effects)
    ensures st == StatusOf(g.effects)
    ensures g.speed == SpeedOf(f.baseSpeed, g.effects)
    ensures g.radius == RadiusOf(f.baseRadius, g.effects)
    ensures g.hp == if time % 10 == 0 then HealTimes(f.hp, f.maxHp, 2.0, Count(g.effects, Lovely)) else f.hp
    ensures g.hitFlash == if f.hitFlash > 0 then f.hitFlash - 1 else f.hitFlash
    ensures g == Managed(f, time)
  {
    var t := Tally(OrDefault(f.baseSpeed, 5.0), OrDefault(f.baseRadius, 40.0), f.hp, 1.0, 1.0, false, false, false);
    var hitFlash := f.hitFlash;
    if hitFlash > 0 {
      hitFlash := hitFlash - 1;
    }
    var effects;
    effects, t := WalkEffects(f, time, t);
    TallyResults(f, time, effects, t);
    var speed := t.speed;
    if t.isFrozen {
      speed := speed * 0.2;
    }
    g := f.(effects := effects, speed := speed, radius := t.radius, hp := t.hp, hitFlash := hitFlash);
    st := Status(t.damageMult, t.damageTakenMult, t.isShielded, t.isLovely);
  }
}

// The bullet pass of the frame (`updateBullets` in components/GameCanvas.tsx): every bullet
// moves one step, leaves when it is far off the canvas, and is resolved against the fighter
// that did not fire it.
module Projectiles {
  import opened Types
  import opened Combat

  /** What one bullet leaves behind: itself (moved) or nothing, and the fighters. */
  datatype Step = Step(kept: seq<Bullet>, duel: Duel)

  function Moved(b: Bullet): Bullet
  {
    b.(x := b.x + b.vx, y := b.y + b.vy)
  }

  /** More than 100 pixels past any edge of the canvas. */
  predicate OffScreen(b: Bullet)
  {
    b.x < -100.0 || b.x > Width + 100.0 || b.y < -100.0 || b.y > Height + 100.0
  }

  function StatusFor(s: Side, s1: Status, s2: Status): Status
  {
    if s == P1 then s1 else s2
  }

  /** The target after an unblocked hit: the damage scaled by its damage-taken multiplier, a
      hit flash, a long FREEZE from a special ICE bolt, a short FREEZE when the attacker's
      damage multiplier is at least 3, and 5 special charge. */
  function Wounded(t: Fighter, b: Bullet, taken: real, attackerMult: real): Fighter
  {
    var ice := if b.isSpecial && b.logic == Ice then [Effect(Freeze, 180)] else [];
    var slow := if attackerMult >= 3.0 then [Effect(Freeze, 30)] else [];
    t.(hp := t.hp - b.dmg * taken,
       hitFlash := 10,
       effects := t.effects + ice + slow,
       specialCharge := MinInt(100, t.specialCharge + 5))
  }

  /** An unblocked hit on the fighter that did not fire b: the target is wounded, the screen
      shakes (15 for a special, 2 otherwise, at most 20) and the attacker gains 10 charge. */
  function Struck(b: Bullet, d: Duel, s1: Status, s2: Status): Duel
  {
    var side := b.owner.Other();
    var t := Wounded(d.Get(side), b, StatusFor(side, s1, s2).damageTakenMult, StatusFor(b.owner, s1, s2).damageMult);
    var d1 := d.With(side, t).(screenShake := Min(20.0, d.screenShake + (if b.isSpecial then 15.0 else 2.0)));
    var a := d1.Get(b.owner);
    d1.With(b.owner, a.(specialCharge := MinInt(100, a.specialCharge + 10)))
  }

  /** One bullet of the pass. A bullet that stays in play has changed nothing else. */
  function Resolve(b: Bullet, d: Duel, s1: Status, s2: Status): (r: Step)
    ensures r.kept == [] || (r.kept == [Moved(b)] && r.duel == d)
  {
    var m := Moved(b);
    var side := b.owner.Other();
    var t := d.Get(side);
    if OffScreen(m) then Step([], d)
    else if s1.isLovely || s2.isLovely then Step([], d)
    else if !Within(m.x - t.x, m.y - t.y, t.radius + m.size) then Step([m], d)
    else if StatusFor(side, s1, s2).isShielded then Step([], d)
    else Step([], Struck(m, d, s1, s2))
  }

  /** The backward loop over the bullet list: the later bullets are resolved first, and the
      survivors keep their order. */
  function Pass(bs: seq<Bullet>, d: Duel, s1: Status, s2: Status): (r: Step)
    ensures |r.kept| <= |bs|
  {
    if bs == [] then Step([], d)
    else
      var later := Pass(bs[1..], d, s1, s2);
      var here := Resolve(bs[0], later.duel, s1, s2);
      Step(here.kept + later.kept, here.duel)
  }

  lemma PassSuffix(bs: seq<Bullet>, i: nat, d: Duel, s1: Status, s2: Status)
    requires i < |bs|
    ensures Pass(bs[i..], d, s1, s2) ==
      var later := Pass(bs[i + 1..], d, s1, s2);
      var here := Resolve(bs[i], later.duel, s1, s2);
      Step(here.kept + later.kept, here.duel)
  {
    assert bs[i..][1..] == bs[i + 1..];
  }

  /** The body of the loop for one bullet: moves it, and reports whether it stays in the list. */
  method ResolveOne(b0: Bullet, d: Duel, s1: Status, s2: Status) returns (stays: bool, b: Bullet, duel: Duel)
    ensures Resolve(b0, d, s1, s2) == Step(if stays then [b] else [], duel)
  {
    duel := d;
    b := b0.(x := b0.x + b0.vx, y := b0.y + b0.vy);
    if b.x < -100.0 || b.x > Width + 100.0 || b.y < -100.0 || b.y > Height + 100.0 {
      return false, b, duel;
    }
    var hit := false;
    var side := b.owner.Other();
    var target := duel.Get(side);
    var targetStatus := if b.owner == P1 then s2 else s1;
    if s1.isLovely || s2.isLovely {
      return false, b, duel;
    }
    if Within(b.x - target.x, b.y - target.y, target.radius + b.size) {
      hit := true;
      if !targetStatus.isShielded {
        var finalDmg := b.dmg * targetStatus.damageTakenMult;
        target := target.(hp := target.hp - finalDmg, hitFlash := 10);
        duel := duel.(screenShake := Min(20.0, duel.screenShake + (if b.isSpecial then 15.0 else 2.0)));
        if b.isSpecial && b.logic == Ice {
          target := target.(effects := target.effects + [Effect(Freeze, 180)]);
        }
        var attackerStatus := if b.owner == P1 then s1 else s2;
        if attackerStatus.damageMult >= 3.0 {
          target := target.(effects := target.effects + [Effect(Freeze, 30)]);
        }
        target := target.(specialCharge := MinInt(100, target.specialCharge + 5));
        duel := duel.With(side, target);
        var attacker := duel.Get(b.owner);
        duel := duel.With(b.owner, attacker.(specialCharge := MinInt(100, attacker.specialCharge + 10)));
      }
    }
    stays := !hit;
  }

  /** updateBullets: walks the list from the end, splicing out every bullet that leaves
      play, and applies each hit to the fighters as it happens. */
  method UpdateBullets(bs: seq<Bullet>, d: Duel, s1: Status, s2: Status) returns (bullets: seq<Bullet>, duel: Duel)
    ensures Step(bullets, duel) == Pass(bs, d, s1, s2)
  {
    bullets := bs;
    duel := d;
    var i := |bullets|;
    while i > 0
      invariant 0 <= i <= |bs|
      invariant bullets == bs[..i] + Pass(bs[i..], d, s1, s2).kept
      invariant duel == Pass(bs[i..], d, s1, s2).duel
    {
      i := i - 1;
      PassSuffix(bs, i, d, s1, s2);
      ghost var later := Pass(bs[i + 1..], d, s1, s2);
      assert bullets[i] == bs[i];
      assert bullets[..i] == bs[..i] && bullets[i + 1..] == later.kept;
      var stays, b;
      stays, b, duel := ResolveOne(bullets[i], duel, s1, s2);
      if stays {
        bullets := bullets[i := b];
      } else {
        bullets := bullets[..i] + bullets[i + 1..];
      }
    }
    assert bs[0..] == bs && bs[..0] == [];
  }

  // ---- properties of the pass ----

  /** While either fighter is LOVELY, every bullet disappears without effect. */
  lemma {:induction false} PeaceClearsAll(bs: seq<Bullet>, d: Duel, s1: Status, s2: Status)
    requires s1.isLovely || s2.isLovely
    ensures Pass(bs, d, s1, s2) == Step([], d)
  {
    if bs != [] {
      PeaceClearsAll(bs[1..], d, s1, s2);
    }
  }

  /** A bullet that reaches its target always leaves play; against a shield it changes
      nothing. */
  lemma ShieldBlocks(b: Bullet, d: Duel, s1: Status, s2: Status)
    requires StatusFor(b.owner.Other(), s1, s2).isShielded
    ensures Resolve(b, d, s1, s2).duel == d
  {
  }

  /** An unblocked hit: the damage scaled by the target's damage-taken multiplier, a hit
      flash, FREEZE 180 from a special ICE bolt and FREEZE 30 when the attacker's damage
      multiplier is at least 3, 5 charge to the target and 10 to the attacker (both capped at
      100), the capped shake, and nothing else on the attacker. */
  lemma UnshieldedHit(b: Bullet, d: Duel, s1: Status, s2: Status)
    requires !s1.isLovely && !s2.isLovely && !OffScreen(Moved(b))
    requires !StatusFor(b.owner.Other(), s1, s2).isShielded
    requires Within(Moved(b).x - d.Get(b.owner.Other()).x, Moved(b).y - d.Get(b.owner.Other()).y,
                    d.Get(b.owner.Other()).radius + b.size)
    ensures var r := Resolve(b, d, s1, s2);
      var t, u := d.Get(b.owner.Other()), r.duel.Get(b.owner.Other());
      && r.kept == []
      && u.hp == t.hp - b.dmg * StatusFor(b.owner.Other(), s1, s2).damageTakenMult
      && u.hitFlash == 10
      && u.x == t.x && u.y == t.y && u.radius == t.radius
      && u.effects == t.effects
           + (if b.isSpecial && b.logic == Ice then [Effect(Freeze, 180)] else [])
           + (if StatusFor(b.owner, s1, s2).damageMult >= 3.0 then [Effect(Freeze, 30)] else [])
      && Count(u.effects, Freeze) >= Count(t.effects, Freeze)
      && u.specialCharge == MinInt(100, t.specialCharge + 5)
      && r.duel.Get(b.owner).specialCharge == MinInt(100, d.Get(b.owner).specialCharge + 10)
      && r.duel.Get(b.owner).hp == d.Get(b.owner).hp
      && r.duel.Get(b.owner).effects == d.Get(b.owner).effects
      && r.duel.screenShake == Min(20.0, d.screenShake + (if b.isSpecial then 15.0 else 2.0))
  {
    var side := b.owner.Other();
    var m := Moved(b);
    var t := d.Get(side);
    var ice := if m.isSpecial && m.logic == Ice then [Effect(Freeze, 180)] else [];
    var slow := if StatusFor(b.owner, s1, s2).damageMult >= 3.0 then [Effect(Freeze, 30)] else [];
    CountAppend(t.effects + ice, slow, Freeze);
    CountAppend(t.effects, ice, Freeze);
  }

  /** A fighter is never damaged or frozen by its own bullets. */
  lemma {:induction false} OwnBulletsHarmless(bs: seq<Bullet>, s: Side, d: Duel, s1: Status, s2: Status)
    requires forall k :: 0 <= k < |bs| ==> bs[k].owner == s
    ensures var f := Pass(bs, d, s1, s2).duel.Get(s);
      f.hp == d.Get(s).hp && f.effects == d.Get(s).effects && f.hitFlash == d.Get(s).hitFlash
  {
    if bs != [] {
      OwnBulletsHarmless(bs[1..], s, d, s1, s2);
    }
  }

  /** Behind a shield a fighter's hit points, effects and hit flash are left alone by the
      whole pass. */
  lemma {:induction false} ShieldHoldsAllPass(bs: seq<Bullet>, s: Side, d: Duel, s1: Status, s2: Status)
    requires StatusFor(s, s1, s2).isShielded
    ensures var f := Pass(bs, d, s1, s2).duel.Get(s);
      f.hp == d.Get(s).hp && f.effects == d.Get(s).effects && f.hitFlash == d.Get(s).hitFlash
  {
    if bs != [] {
      ShieldHoldsAllPass(bs[1..], s, d, s1, s2);
    }
  }

  predicate ChargesIn(d: Duel)
  {
    0 <= d.p1.specialCharge <= 100 && 0 <= d.p2.specialCharge <= 100
  }

  /** Special charge stays within [0, 100] and the screen shake within [0, 20]. */
  lemma {:induction false} PassKeepsBounds(bs: seq<Bullet>, d: Duel, s1: Status, s2: Status)
    requires ChargesIn(d) && 0.0 <= d.screenShake <= 20.0
    ensures ChargesIn(Pass(bs, d, s1, s2).duel)
    ensures 0.0 <= Pass(bs, d, s1, s2).duel.screenShake <= 20.0
  {
    if bs != [] {
      PassKeepsBounds(bs[1..], d, s1, s2);
    }
  }

  /** A bullet adds FREEZE entries at most: it never adds or removes a pickup effect. */
  lemma ResolveKeepsPickups(b: Bullet, d: Duel, s1: Status, s2: Status, s: Side, k: PowerUpType)
    ensures Count(Resolve(b, d, s1, s2).duel.Get(s).effects, Pickup(k)) == Count(d.Get(s).effects, Pickup(k))
  {
    var m := Moved(b);
    var side := b.owner.Other();
    var t := d.Get(side);
    var ice := if m.isSpecial && m.logic == Ice then [Effect(Freeze, 180)] else [];
    var slow := if StatusFor(b.owner, s1, s2).damageMult >= 3.0 then [Effect(Freeze, 30)] else [];
    CountAppend(t.effects + ice, slow, Pickup(k));
    CountAppend(t.effects, ice, Pickup(k));
  }

  /** Over a whole pass the pickup effects of either fighter are left as they were. */
  lemma {:induction false} PassKeepsPickups(bs: seq<Bullet>, d: Duel, s1: Status, s2: Status, s: Side, k: PowerUpType)
    ensures Count(Pass(bs, d, s1, s2).duel.Get(s).effects, Pickup(k)) == Count(d.Get(s).effects, Pickup(k))
  {
    if bs != [] {
      PassKeepsPickups(bs[1..], d, s1, s2, s, k);
      ResolveKeepsPickups(bs[0], Pass(bs[1..], d, s1, s2).duel, s1, s2, s, k);
    }
  }

  /** With non-negative damage and multipliers no bullet heals anyone. */
  lemma {:induction false} PassNeverHeals(bs: seq<Bullet>, s: Side, d: Duel, s1: Status, s2: Status)
    requires forall k :: 0 <= k < |bs| ==> bs[k].dmg >= 0.0
    requires s1.damageTakenMult >= 0.0 && s2.damageTakenMult >= 0.0
    ensures Pass(bs, d, s1, s2).duel.Get(s).hp <= d.Get(s).hp
  {
    if bs != [] {
      PassNeverHeals(bs[1..], s, d, s1, s2);
    }
  }
}

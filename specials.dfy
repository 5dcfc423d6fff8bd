// Special abilities (`fireSpecial` in components/GameCanvas.tsx): a full charge is spent on
// a self buff, a buff on both fighters, or a special bolt, chosen by the fighter's ability id.
module Specials {
  import opened Types
  import opened Combat

  /** What an ability does once the charge is spent. */
  datatype Action =
    | SelfBuff(kind: EffectType, duration: int)
    | BothBuff(kind: EffectType, duration: int)
    | Bolt(logic: Logic)

  /** The switch over ability ids; every id without a case of its own fires a bolt. */
  function ActionOf(id: SpecialId): (a: Action)
    ensures a.Bolt? <==> id !in {RohanMob, Lambardaar, Singh, Soni, Pal}
    ensures a.Bolt? ==> (a.logic == Fire <==> id == GMasti)
    ensures a.BothBuff? <==> id == Pal
  {
    match id
    case RohanMob => SelfBuff(Shield, 300)
    case Lambardaar => SelfBuff(Giant, 600)
    case Singh => SelfBuff(Tough, 600)
    case Soni => SelfBuff(GoldMode, 480)
    case Pal => BothBuff(Lovely, 600)
    case _ => Bolt(if id == GMasti then Fire else Ice)
  }

  /** `p1.specialId || 'GMASTI'` for player one, `p2.specialId || '6FTBADDIE'` for player two. */
  function AbilityOf(side: Side, p1Id: Option<SpecialId>, p2Id: Option<SpecialId>): (id: SpecialId)
    ensures side == P1 && p1Id.Some? ==> id == p1Id.value
    ensures side == P2 && p2Id.Some? ==> id == p2Id.value
    ensures side == P1 && p1Id.None? ==> id == GMasti
    ensures side == P2 && p2Id.None? ==> id == SixFtBaddie
  {
    if side == P1 then (if p1Id.Some? then p1Id.value else GMasti)
    else (if p2Id.Some? then p2Id.value else SixFtBaddie)
  }

  /** The bolt's direction: player one aims at the pointer in MANUAL mode (`atan2(dy || 0,
      dx || 1)`) and at player two otherwise; player two always aims at player one. */
  function AimAngle(side: Side, aim: AimMode, d: Duel, mouseX: real, mouseY: real, m: MathLib): real
  {
    var c := d.Get(side);
    if side == P1 && aim == Manual then
      m.atan2(OrDefault(mouseY - c.y, 0.0), OrDefault(mouseX - c.x, 1.0))
    else
      var t := d.Get(side.Other());
      m.atan2(t.y - c.y, t.x - c.x)
  }

  /** The special bolt: it starts 40 pixels out along the aim, flies at 16 (player one) or 12,
      hits for 80 or 50 times the caster's damage multiplier, and is 40 or 30 wide. */
  function BoltOf(side: Side, c: Fighter, angle: real, dmgMult: real, logic: Logic, m: MathLib): (b: Bullet)
    ensures b.owner == side && b.isSpecial && b.logic == logic
    ensures b.dmg == (if side == P1 then 80.0 else 50.0) * dmgMult
  {
    var isP1 := side == P1;
    Bullet(
      x := c.x + m.cos(angle) * 40.0,
      y := c.y + m.sin(angle) * 40.0,
      vx := m.cos(angle) * (if isP1 then 16.0 else 12.0),
      vy := m.sin(angle) * (if isP1 then 16.0 else 12.0),
      owner := side,
      dmg := (if isP1 then 80.0 else 50.0) * dmgMult,
      size := if isP1 then 40.0 else 30.0,
      isSpecial := true,
      logic := logic)
  }

  function Push(f: Fighter, e: Effect): Fighter
  {
    f.(effects := f.effects + [e])
  }

  /** fireSpecial on the fighters, the bullet list and the screen shake. `angle` is only used
      by a bolt. */
  function Cast(d: Duel, bullets: seq<Bullet>, side: Side, id: SpecialId, angle: real, dmgMult: real, m: MathLib)
    : (r: (Duel, seq<Bullet>))
  {
    var c := d.Get(side);
    if c.specialCharge < 100 then (d, bullets)
    else
      var d0 := d.With(side, c.(specialCharge := 0));
      var c0 := d0.Get(side);
      match ActionOf(id)
      case SelfBuff(k, n) => (d0.With(side, Push(c0, Effect(k, n))), bullets)
      case BothBuff(k, n) => (d0.(p1 := Push(d0.p1, Effect(k, n)), p2 := Push(d0.p2, Effect(k, n))), bullets)
      case Bolt(logic) => (d0.(screenShake := 20.0), bullets + [BoltOf(side, c0, angle, dmgMult, logic, m)])
  }

  // ---- properties of the dispatch ----

  /** No ability grants a SPEED or POWER pickup effect, to either fighter. */
  lemma CastKeepsPickups(d: Duel, bullets: seq<Bullet>, side: Side, id: SpecialId, angle: real, dmgMult: real, m: MathLib,
                         s: Side, k: PowerUpType)
    ensures Count(Cast(d, bullets, side, id, angle, dmgMult, m).0.Get(s).effects, Pickup(k)) == Count(d.Get(s).effects, Pickup(k))
  {
    var a := ActionOf(id);
    if a.SelfBuff? || a.BothBuff? {
      CountAppend(d.Get(s).effects, [Effect(a.kind, a.duration)], Pickup(k));
    }
  }

  /** Without a full charge nothing happens. */
  lemma NoChargeNoCast(d: Duel, bullets: seq<Bullet>, side: Side, id: SpecialId, angle: real, dmgMult: real, m: MathLib)
    requires d.Get(side).specialCharge < 100
    ensures Cast(d, bullets, side, id, angle, dmgMult, m) == (d, bullets)
  {
  }

  /** A full charge is always spent to exactly 0. */
  lemma CastSpendsCharge(d: Duel, bullets: seq<Bullet>, side: Side, id: SpecialId, angle: real, dmgMult: real, m: MathLib)
    requires d.Get(side).specialCharge >= 100
    ensures Cast(d, bullets, side, id, angle, dmgMult, m).0.Get(side).specialCharge == 0
    ensures Cast(d, bullets, side, id, angle, dmgMult, m).0.Get(side.Other()).specialCharge == d.Get(side.Other()).specialCharge
  {
  }

  /** PAL gives LOVELY for 600 frames to both fighters and fires nothing. */
  lemma PalLovesBoth(d: Duel, bullets: seq<Bullet>, side: Side, angle: real, dmgMult: real, m: MathLib)
    requires d.Get(side).specialCharge >= 100
    ensures var r := Cast(d, bullets, side, Pal, angle, dmgMult, m);
      && r.1 == bullets
      && r.0.p1.effects == d.p1.effects + [Effect(Lovely, 600)]
      && r.0.p2.effects == d.p2.effects + [Effect(Lovely, 600)]
  {
  }

  /** The four self buffs go to the caster only, with their fixed durations. */
  lemma SelfBuffOnly(d: Duel, bullets: seq<Bullet>, side: Side, id: SpecialId, angle: real, dmgMult: real, m: MathLib)
    requires d.Get(side).specialCharge >= 100
    requires id in {RohanMob, Lambardaar, Singh, Soni}
    ensures var r := Cast(d, bullets, side, id, angle, dmgMult, m);
      && r.1 == bullets
      && r.0.Get(side.Other()) == d.Get(side.Other())
      && r.0.Get(side).effects == d.Get(side).effects +
           [if id == RohanMob then Effect(Shield, 300)
            else if id == Lambardaar then Effect(Giant, 600)
            else if id == Singh then Effect(Tough, 600)
            else Effect(GoldMode, 480)]
  {
  }

  /** Every other id fires exactly one special bolt, FIRE only for GMASTI, and shakes the
      screen to 20; no effect changes. */
  lemma OtherIdsFire(d: Duel, bullets: seq<Bullet>, side: Side, id: SpecialId, angle: real, dmgMult: real, m: MathLib)
    requires d.Get(side).specialCharge >= 100
    requires id !in {RohanMob, Lambardaar, Singh, Soni, Pal}
    ensures var r := Cast(d, bullets, side, id, angle, dmgMult, m);
      && |r.1| == |bullets| + 1 && r.1[..|bullets|] == bullets
      && r.1[|bullets|].isSpecial && r.1[|bullets|].owner == side
      && r.1[|bullets|].dmg == (if side == P1 then 80.0 else 50.0) * dmgMult
      && (r.1[|bullets|].logic == Fire <==> id == GMasti)
      && r.1[|bullets|].logic in {Fire, Ice}
      && r.0.screenShake == 20.0
      && r.0.p1.effects == d.p1.effects && r.0.p2.effects == d.p2.effects
  {
  }
}

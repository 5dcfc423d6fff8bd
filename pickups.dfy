// Power-ups in the arena (components/GameCanvas.tsx): spawning one of the allowed kinds,
// applying a picked-up kind to a fighter, and the per-frame pass over the power-ups on the
// field.
module Pickups {
  import opened Types
  import opened Combat

  /** The part of the state a pickup can change: the fighters and the black holes. */
  datatype Board = Board(duel: Duel, holes: seq<Hole>)

  /** `effects.findIndex(e => e.type === k)`: the first position of kind k, or -1. */
  function FindIndex(es: seq<Effect>, k: EffectType): (r: int)
    ensures -1 <= r < |es|
    ensures r == -1 <==> forall j :: 0 <= j < |es| ==> es[j].kind != k
    ensures r >= 0 ==> es[r].kind == k && forall j :: 0 <= j < r ==> es[j].kind != k
  {
    if es == [] then -1
    else if es[0].kind == k then 0
    else
      var r := FindIndex(es[1..], k);
      if r == -1 then -1 else r + 1
  }

  /** Removes the first effect of kind k, if any, keeping the order of the rest. */
  function DropFirst(es: seq<Effect>, k: EffectType): seq<Effect>
  {
    var j := FindIndex(es, k);
    if j == -1 then es else es[..j] + es[j + 1..]
  }

  /** applyPowerUp: BLACK_HOLE opens a hole on the opponent owned by the picker; HEAL adds 50
      hit points up to maxHp; SPEED and POWER replace the picker's running effect of that kind
      by a fresh one of 480 frames. */
  function ApplyPowerUp(b: Board, s: Side, k: PowerUpType): Board
  {
    var c := b.duel.Get(s);
    if k == BlackHole then
      var target := b.duel.Get(s.Other());
      b.(holes := b.holes + [Hole(target.x, target.y, 300, s)])
    else if k == Heal then
      b.(duel := b.duel.With(s, c.(hp := Min(c.maxHp, c.hp + 50.0))))
    else
      b.(duel := b.duel.With(s, c.(effects := DropFirst(c.effects, Pickup(k)) + [Effect(Pickup(k), 480)])))
  }

  lemma {:induction false} DropFirstCount(es: seq<Effect>, k: EffectType, other: EffectType)
    ensures Count(DropFirst(es, k), other) ==
      if other == k && Count(es, k) > 0 then Count(es, k) - 1 else Count(es, other)
  {
    var j := FindIndex(es, k);
    if j != -1 {
      assert es == es[..j] + [es[j]] + es[j + 1..];
      CountAppend(es[..j] + [es[j]], es[j + 1..], other);
      CountAppend(es[..j], [es[j]], other);
      CountAppend(es[..j], es[j + 1..], other);
      CountAppend(es[..j], [es[j]], k);
      CountAppend(es[..j] + [es[j]], es[j + 1..], k);
      NoneCounted(es[..j], k);
    } else {
      NoneCounted(es, k);
    }
  }

  lemma {:induction false} NoneCounted(es: seq<Effect>, k: EffectType)
    requires forall j :: 0 <= j < |es| ==> es[j].kind != k
    ensures Count(es, k) == 0
  {
    if es != [] {
      NoneCounted(es[1..], k);
    }
  }

  /** A SPEED or POWER pickup refreshes rather than stacks: with at most one running before,
      exactly one runs after, lasting 480 frames, and no other kind is touched. */
  lemma RefreshNotStack(b: Board, s: Side, k: PowerUpType, other: EffectType)
    requires k == Speed || k == Power
    requires Count(b.duel.Get(s).effects, Pickup(k)) <= 1
    requires other != Pickup(k)
    ensures var e := ApplyPowerUp(b, s, k).duel.Get(s).effects;
      && Count(e, Pickup(k)) == 1
      && e[|e| - 1] == Effect(Pickup(k), 480)
      && Count(e, other) == Count(b.duel.Get(s).effects, other)
  {
    var es := b.duel.Get(s).effects;
    var e := [Effect(Pickup(k), 480)];
    DropFirstCount(es, Pickup(k), Pickup(k));
    DropFirstCount(es, Pickup(k), other);
    CountAppend(DropFirst(es, Pickup(k)), e, Pickup(k));
    CountAppend(DropFirst(es, Pickup(k)), e, other);
  }

  /** No pickup stacks a SPEED or POWER effect on either fighter. */
  lemma ApplyUnstacked(b: Board, s: Side, k: PowerUpType)
    requires Unstacked(b.duel.p1) && Unstacked(b.duel.p2)
    ensures var r := ApplyPowerUp(b, s, k).duel; Unstacked(r.p1) && Unstacked(r.p2)
  {
    if k == Speed {
      RefreshNotStack(b, s, Speed, Pickup(Power));
    } else if k == Power {
      RefreshNotStack(b, s, Power, Pickup(Speed));
    }
  }

  /** However many power-ups are taken in one sweep, no pickup effect is stacked. */
  lemma {:induction false} SweepUnstacked(ps: seq<PowerUp>, b: Board)
    requires Unstacked(b.duel.p1) && Unstacked(b.duel.p2)
    ensures var r := Sweep(ps, b).1.duel; Unstacked(r.p1) && Unstacked(r.p2)
    decreases |ps|
  {
    if ps != [] {
      var p := Touch(ps[0]);
      var taker := Taker(p, b.duel);
      var b1 := if taker.Some? then ApplyPowerUp(b, taker.value, p.kind) else b;
      if taker.Some? {
        ApplyUnstacked(b, taker.value, p.kind);
      }
      if !(taker.Some? || p.life <= 0) {
        SweepUnstacked(ps[1..], b1);
      } else if |ps| > 1 {
        SweepUnstacked(ps[2..], b1);
      }
    }
  }

  /** HEAL never passes maxHp and never lowers a fighter that was at or below it. */
  lemma HealBounded(b: Board, s: Side)
    requires b.duel.Get(s).hp <= b.duel.Get(s).maxHp
    ensures var f := ApplyPowerUp(b, s, Heal).duel.Get(s);
      b.duel.Get(s).hp <= f.hp <= f.maxHp && f.hp <= b.duel.Get(s).hp + 50.0
  {
  }

  /** A BLACK_HOLE changes neither fighter and opens one hole on the picker's opponent. */
  lemma HoleOnOpponent(b: Board, s: Side)
    ensures var r := ApplyPowerUp(b, s, BlackHole);
      && r.duel == b.duel
      && |r.holes| == |b.holes| + 1
      && r.holes[..|b.holes|] == b.holes
      && var h := r.holes[|b.holes|];
         h.owner == s && h.x == b.duel.Get(s.Other()).x && h.y == b.duel.Get(s.Other()).y && h.life == 300
  {
  }

  /** spawnPowerUp with its three Math.random() draws as inputs: nothing when no kind is
      allowed, otherwise a 20-pixel power-up of an allowed kind, 100 pixels clear of every
      edge, lasting 600 frames. */
  function Spawned(allowed: seq<PowerUpType>, pick: real, rx: real, ry: real): (r: Option<PowerUp>)
    requires 0.0 <= pick < 1.0 && 0.0 <= rx < 1.0 && 0.0 <= ry < 1.0
    ensures r.None? <==> allowed == []
    ensures r.Some? ==> && r.value.kind in allowed
                        && 100.0 <= r.value.x <= Width - 100.0
                        && 100.0 <= r.value.y <= Height - 100.0
                        && r.value.radius == 20.0 && r.value.life == 600 && r.value.rotation == 0.0
  {
    if |allowed| == 0 then None
    else
      var index := (pick * (|allowed| as real)).Floor;
      assert 0 <= index < |allowed| by {
        assert pick * (|allowed| as real) < |allowed| as real;
      }
      var margin := 100.0;
      Some(PowerUp(
        x := margin + rx * (Width - margin * 2.0),
        y := margin + ry * (Height - margin * 2.0),
        kind := allowed[index],
        radius := 20.0,
        life := 600,
        rotation := 0.0))
  }

  /** A power-up after this frame's spin and countdown. */
  function Touch(p: PowerUp): PowerUp
  {
    p.(rotation := p.rotation + 0.05, life := p.life - 1)
  }

  /** Who takes a touched power-up: player one has priority over player two. */
  function Taker(p: PowerUp, d: Duel): Option<Side>
  {
    if Within(p.x - d.p1.x, p.y - d.p1.y, d.p1.radius + p.radius) then Some(P1)
    else if Within(p.x - d.p2.x, p.y - d.p2.y, d.p2.radius + p.radius) then Some(P2)
    else None
  }

  /** The forEach over the power-ups, which splices the array it walks: after a removal at
      index i, the item that slides into i is not visited this frame, and stays as it was. */
  function Sweep(ps: seq<PowerUp>, b: Board): (r: (seq<PowerUp>, Board))
    ensures |r.0| <= |ps|
    decreases |ps|
  {
    if ps == [] then ([], b)
    else
      var p := Touch(ps[0]);
      var taker := Taker(p, b.duel);
      var removed := taker.Some? || p.life <= 0;
      var b1 := if taker.Some? then ApplyPowerUp(b, taker.value, p.kind) else b;
      if !removed then
        var rest := Sweep(ps[1..], b1);
        ([p] + rest.0, rest.1)
      else if |ps| == 1 then ([], b1)
      else
        var rest := Sweep(ps[2..], b1);
        ([ps[1]] + rest.0, rest.1)
  }

  /** The loop body for the item at the visited index: its new value if it stays. */
  method Visit(p0: PowerUp, b0: Board) returns (stays: bool, p: PowerUp, b: Board)
    ensures p == Touch(p0)
    ensures stays <==> Taker(p, b0.duel).None? && p.life > 0
    ensures b == if Taker(p, b0.duel).Some? then ApplyPowerUp(b0, Taker(p, b0.duel).value, p.kind) else b0
  {
    b := b0;
    p := p0.(rotation := p0.rotation + 0.05);
    p := p.(life := p.life - 1);
    stays := true;
    if Within(p.x - b.duel.p1.x, p.y - b.duel.p1.y, b.duel.p1.radius + p.radius) {
      b := ApplyPowerUp(b, P1, p.kind);
      stays := false;
    } else {
      if Within(p.x - b.duel.p2.x, p.y - b.duel.p2.y, b.duel.p2.radius + p.radius) {
        b := ApplyPowerUp(b, P2, p.kind);
        stays := false;
      } else if p.life <= 0 {
        stays := false;
      }
    }
  }

  /** One visit of the sweep at index j, in terms of the visited item's outcome. */
  lemma SweepAt(ps: seq<PowerUp>, j: nat, b: Board, stays: bool, p: PowerUp, b1: Board)
    requires j < |ps|
    requires p == Touch(ps[j])
    requires stays <==> Taker(p, b.duel).None? && p.life > 0
    requires b1 == if Taker(p, b.duel).Some? then ApplyPowerUp(b, Taker(p, b.duel).value, p.kind) else b
    ensures stays ==> Sweep(ps[j..], b) == ([p] + Sweep(ps[j + 1..], b1).0, Sweep(ps[j + 1..], b1).1)
    ensures !stays && j + 1 < |ps| ==>
      Sweep(ps[j..], b) == ([ps[j + 1]] + Sweep(ps[j + 2..], b1).0, Sweep(ps[j + 2..], b1).1)
    ensures !stays && j + 1 == |ps| ==> Sweep(ps[j..], b) == ([], b1)
  {
    assert ps[j..][0] == ps[j];
    assert ps[j..][1..] == ps[j + 1..];
    if j + 1 < |ps| {
      assert ps[j..][1] == ps[j + 1] && ps[j..][2..] == ps[j + 2..];
    }
  }

  /** The sweep so far: `out` is settled, and the rest starts at index j of ps. */
  ghost predicate SweptTo(ps: seq<PowerUp>, b0: Board, out: seq<PowerUp>, j: nat, b: Board)
    requires j <= |ps|
  {
    Sweep(ps, b0) == (out + Sweep(ps[j..], b).0, Sweep(ps[j..], b).1)
  }

  /** One visit advances the settled prefix by the visited item, or by the item after a
      removed one. */
  lemma Advance(ps: seq<PowerUp>, b0: Board, out: seq<PowerUp>, j: nat, b: Board, stays: bool, p: PowerUp, b1: Board)
      returns (out': seq<PowerUp>, j': nat)
    requires j < |ps| && SweptTo(ps, b0, out, j, b)
    requires p == Touch(ps[j])
    requires stays <==> Taker(p, b.duel).None? && p.life > 0
    requires b1 == if Taker(p, b.duel).Some? then ApplyPowerUp(b, Taker(p, b.duel).value, p.kind) else b
    ensures j' <= |ps| && SweptTo(ps, b0, out', j', b1)
    ensures stays ==> out' == out + [p] && j' == j + 1
    ensures !stays && j + 1 < |ps| ==> out' == out + [ps[j + 1]] && j' == j + 2
    ensures !stays && j + 1 == |ps| ==> out' == out && j' == |ps|
    ensures stays ==> (out + ps[j..])[|out| := p] == out' + ps[j'..]
    ensures !stays ==> (out + ps[j..])[..|out|] + (out + ps[j..])[|out| + 1..] == out' + ps[j'..]
  {
    var all := out + ps[j..];
    assert all[..|out|] == out && all[|out| + 1..] == ps[j + 1..];
    SweepAt(ps, j, b, stays, p, b1);
    if stays {
      out', j' := out + [p], j + 1;
      assert out + ([p] + Sweep(ps[j + 1..], b1).0) == out' + Sweep(ps[j + 1..], b1).0;
      assert all[|out| := p] == out + [p] + ps[j + 1..];
    } else if j + 1 < |ps| {
      out', j' := out + [ps[j + 1]], j + 2;
      assert out + ([ps[j + 1]] + Sweep(ps[j + 2..], b1).0) == out' + Sweep(ps[j + 2..], b1).0;
      assert ps[j + 1..] == [ps[j + 1]] + ps[j + 2..];
    } else {
      out', j' := out, |ps|;
      assert ps[|ps|..] == [] && out + [] == out;
    }
  }

  /** The power-up collision loop: forEach's index climbs past a splice. */
  method SweepPowerUps(ps: seq<PowerUp>, b0: Board) returns (powerups: seq<PowerUp>, b: Board)
    ensures (powerups, b) == Sweep(ps, b0)
  {
    powerups := ps;
    b := b0;
    var k := 0;
    ghost var j: nat := 0;
    ghost var out: seq<PowerUp> := [];
    assert ps[0..] == ps;
    assert out + Sweep(ps, b0).0 == Sweep(ps, b0).0;
    while k < |powerups|
      invariant j <= |ps|
      invariant powerups == out + ps[j..]
      invariant k == |out| || (j == |ps| && k == |out| + 1)
      invariant SweptTo(ps, b0, out, j, b)
      decreases |ps| - j
    {
      assert k == |out| && j < |ps|;
      assert powerups[k] == ps[j];
      ghost var before := b;
      var stays, p;
      stays, p, b := Visit(powerups[k], b);
      if stays {
        powerups := powerups[k := p];
      } else {
        powerups := powerups[..k] + powerups[k + 1..];
      }
      out, j := Advance(ps, b0, out, j, before, stays, p, b);
      assert powerups == out + ps[j..];
      k := k + 1;
    }
    assert ps[|ps|..] == [] && out + [] == out;
  }

  // ---- properties of the sweep ----

  /** The skip: when the first power-up is taken, the second is neither aged nor taken in
      the same frame, even if a fighter stands on it. */
  lemma SkipAfterRemoval(ps: seq<PowerUp>, b: Board)
    requires |ps| >= 2
    requires Taker(Touch(ps[0]), b.duel).Some? || Touch(ps[0]).life <= 0
    ensures Sweep(ps, b).0[0] == ps[1]
  {
  }

  /** Player one wins a power-up both fighters reach. */
  lemma PlayerOneFirst(p: PowerUp, b: Board)
    requires Within(Touch(p).x - b.duel.p1.x, Touch(p).y - b.duel.p1.y, b.duel.p1.radius + p.radius)
    ensures Sweep([p], b) == ([], ApplyPowerUp(b, P1, p.kind))
  {
  }

  /** Untaken power-ups expire: one with a single frame of life left is gone. */
  lemma Expires(p: PowerUp, b: Board)
    requires Taker(Touch(p), b.duel).None? && p.life <= 1
    ensures Sweep([p], b) == ([], b)
  {
  }

  /** Without any fighter nearby and with life to spare, every power-up is aged in place. */
  lemma {:induction false} UntouchedAge(ps: seq<PowerUp>, b: Board)
    requires forall i :: 0 <= i < |ps| ==> Taker(Touch(ps[i]), b.duel).None? && ps[i].life > 1
    ensures Sweep(ps, b).1 == b
    ensures |Sweep(ps, b).0| == |ps|
    ensures forall i :: 0 <= i < |ps| ==> Sweep(ps, b).0[i] == Touch(ps[i])
  {
    if ps != [] {
      UntouchedAge(ps[1..], b);
    }
  }

  /** Picking up power-ups never changes special charge or the screen shake. */
  lemma {:induction false} SweepKeepsCharge(ps: seq<PowerUp>, b: Board)
    ensures var r := Sweep(ps, b).1.duel;
      r.p1.specialCharge == b.duel.p1.specialCharge && r.p2.specialCharge == b.duel.p2.specialCharge
      && r.screenShake == b.duel.screenShake
    decreases |ps|
  {
    if ps != [] {
      var p := Touch(ps[0]);
      var taker := Taker(p, b.duel);
      var b1 := if taker.Some? then ApplyPowerUp(b, taker.value, p.kind) else b;
      if !(taker.Some? || p.life <= 0) {
        SweepKeepsCharge(ps[1..], b1);
      } else if |ps| > 1 {
        SweepKeepsCharge(ps[2..], b1);
      }
    }
  }
}

// The black-hole pass of the frame (components/GameCanvas.tsx): every hole counts down, pulls
// the fighter that did not open it, burns that fighter at its core every tenth frame, and
// closes when its life runs out.
module BlackHoles {
  import opened Types
  import opened Combat

  /** The pull at distance dist: `1000 / (dist + 50)`. */
  function Pull(dist: real): (force: real)
    requires dist >= 0.0
    ensures 0.0 < force <= 20.0
  {
    1000.0 / (dist + 50.0)
  }

  /** The pull grows as the target gets closer. */
  lemma CloserPullsHarder(near: real, far: real)
    requires 0.0 <= near < far
    ensures Pull(far) < Pull(near)
  {
    var p, q := Pull(near), Pull(far);
    assert p * (near + 50.0) == 1000.0 && q * (far + 50.0) == 1000.0;
    assert q * (far - near) > 0.0;
    assert q * (near + 50.0) < 1000.0 by {
      assert q * (far + 50.0) == q * (near + 50.0) + q * (far - near);
    }
    assert (p - q) * (near + 50.0) > 0.0;
  }

  /** The target after one hole's turn: pulled along the direction to the hole when more than
      10 pixels away, and burned for 2 with a hit flash when closer than 40 on a tenth frame.
      A shield does not help against it. */
  function Dragged(h: Hole, t: Fighter, time: int, m: MathLib): Fighter
    requires m.Valid()
  {
    var dx := h.x - t.x;
    var dy := h.y - t.y;
    var pulled := if Beyond(dx, dy, 10.0) then Pulled(t, dx, dy, m) else t;
    if Within(dx, dy, 40.0) && time % 10 == 0 then pulled.(hp := pulled.hp - 2.0, hitFlash := 5) else pulled
  }

  /** The velocity change toward a hole at offset (dx, dy). */
  function Pulled(t: Fighter, dx: real, dy: real, m: MathLib): Fighter
    requires m.Valid()
  {
    var force := Pull(m.sqrt(dx * dx + dy * dy));
    var angle := m.atan2(dy, dx);
    t.(vx := t.vx + m.cos(angle) * force, vy := t.vy + m.sin(angle) * force)
  }

  /** One hole of the pass: what remains of it and the fighters after its turn. */
  function Turn(h: Hole, d: Duel, time: int, m: MathLib): (r: (seq<Hole>, Duel))
    requires m.Valid()
    ensures r.0 == [] || r.0 == [h.(life := h.life - 1)]
    ensures r.0 == [] <==> h.life <= 1
    ensures r.1.Get(h.owner) == d.Get(h.owner) && r.1.screenShake == d.screenShake
  {
    var h1 := h.(life := h.life - 1);
    var side := h.owner.Other();
    var d1 := d.With(side, Dragged(h1, d.Get(side), time, m));
    (if h1.life <= 0 then [] else [h1], d1)
  }

  /** The backward loop over the holes: the later holes act first, the survivors keep their
      order. */
  function HolePass(hs: seq<Hole>, d: Duel, time: int, m: MathLib): (r: (seq<Hole>, Duel))
    requires m.Valid()
    ensures |r.0| <= |hs|
  {
    if hs == [] then ([], d)
    else
      var later := HolePass(hs[1..], d, time, m);
      var here := Turn(hs[0], later.1, time, m);
      (here.0 + later.0, here.1)
  }

  lemma HolePassSuffix(hs: seq<Hole>, i: nat, d: Duel, time: int, m: MathLib)
    requires m.Valid() && i < |hs|
    ensures HolePass(hs[i..], d, time, m) ==
      var later := HolePass(hs[i + 1..], d, time, m);
      var here := Turn(hs[i], later.1, time, m);
      (here.0 + later.0, here.1)
  {
    assert hs[i..][1..] == hs[i + 1..];
  }

  /** The body of the hole loop for the hole's target. */
  method Drag(bh: Hole, t: Fighter, time: int, m: MathLib) returns (target: Fighter)
    requires m.Valid()
    ensures target == Dragged(bh, t, time, m)
  {
    target := t;
    var dx := bh.x - target.x;
    var dy := bh.y - target.y;
    var dist := m.sqrt(dx * dx + dy * dy);
    assert 0.0 <= dx * dx && 0.0 <= dy * dy;
    assert 0.0 <= dist;
    if Beyond(dx, dy, 10.0) {
      var force := Pull(dist);
      var angle := m.atan2(dy, dx);
      target := target.(vx := target.vx + m.cos(angle) * force);
      target := target.(vy := target.vy + m.sin(angle) * force);
      assert force == Pull(m.sqrt(dx * dx + dy * dy)) && angle == m.atan2(dy, dx);
      assert target.vx == t.vx + m.cos(angle) * force && target.vy == t.vy + m.sin(angle) * force;
      assert target == t.(vx := target.vx, vy := target.vy);
    }
    assert target == if Beyond(dx, dy, 10.0) then Pulled(t, dx, dy, m) else t;
    assert dx == bh.x - t.x && dy == bh.y - t.y;
    if Within(dx, dy, 40.0) && time % 10 == 0 {
      target := target.(hp := target.hp - 2.0, hitFlash := 5);
    }
  }

  /** The hole loop of updateGameLogic, splicing out the holes whose life is over. */
  method UpdateHoles(hs: seq<Hole>, d: Duel, time: int, m: MathLib) returns (holes: seq<Hole>, duel: Duel)
    requires m.Valid()
    ensures (holes, duel) == HolePass(hs, d, time, m)
  {
    holes := hs;
    duel := d;
    var i := |holes|;
    while i > 0
      invariant 0 <= i <= |hs|
      invariant holes == hs[..i] + HolePass(hs[i..], d, time, m).0
      invariant duel == HolePass(hs[i..], d, time, m).1
    {
      i := i - 1;
      HolePassSuffix(hs, i, d, time, m);
      assert holes[i] == hs[i];
      assert holes[..i] == hs[..i] && holes[i + 1..] == HolePass(hs[i + 1..], d, time, m).0;
      var bh := holes[i];
      bh := bh.(life := bh.life - 1);
      holes := holes[i := bh];
      var side := bh.owner.Other();
      var target := Drag(bh, duel.Get(side), time, m);
      duel := duel.With(side, target);
      if bh.life <= 0 {
        holes := holes[..i] + holes[i + 1..];
      }
    }
    assert hs[0..] == hs && hs[..0] == [];
    assert holes == HolePass(hs, d, time, m).0;
  }

  // ---- properties of the pass ----

  /** A hole never touches the fighter who opened it. */
  lemma {:induction false} OpenerUntouched(hs: seq<Hole>, s: Side, d: Duel, time: int, m: MathLib)
    requires m.Valid()
    requires forall k :: 0 <= k < |hs| ==> hs[k].owner == s
    ensures HolePass(hs, d, time, m).1.Get(s) == d.Get(s)
  {
    if hs != [] {
      OpenerUntouched(hs[1..], s, d, time, m);
    }
  }

  /** Holes close exactly when their life runs out: each survivor is an earlier hole one
      frame older, with at least one frame left. */
  lemma {:induction false} SurvivorsAged(hs: seq<Hole>, d: Duel, time: int, m: MathLib)
    requires m.Valid()
    ensures forall h :: h in HolePass(hs, d, time, m).0 ==> h.life >= 1 && h.(life := h.life + 1) in hs
  {
    if hs != [] {
      SurvivorsAged(hs[1..], d, time, m);
      var later := HolePass(hs[1..], d, time, m);
      var here := Turn(hs[0], later.1, time, m);
      forall h | h in here.0 + later.0
        ensures h.life >= 1 && h.(life := h.life + 1) in hs
      {
        if h in here.0 {
          assert h.(life := h.life + 1) == hs[0];
        } else {
          assert h.(life := h.life + 1) in hs[1..];
        }
      }
    }
  }

  /** No hole survives a pass when all are on their last frame. */
  lemma {:induction false} AllClose(hs: seq<Hole>, d: Duel, time: int, m: MathLib)
    requires m.Valid()
    requires forall k :: 0 <= k < |hs| ==> hs[k].life <= 1
    ensures HolePass(hs, d, time, m).0 == []
  {
    if hs != [] {
      AllClose(hs[1..], d, time, m);
    }
  }

  /** The core burns for 2 on tenth frames only, and nothing outside the 40-pixel core. */
  lemma CoreBurn(h: Hole, t: Fighter, time: int, m: MathLib)
    requires m.Valid()
    ensures Dragged(h, t, time, m).hp ==
      if Within(h.x - t.x, h.y - t.y, 40.0) && time % 10 == 0 then t.hp - 2.0 else t.hp
  {
  }

  /** A hole burns, pulls or leaves alone, but never heals: over a whole pass the target
      loses 2 hit points per hole whose core it stands in, at most. */
  lemma {:induction false} HolesNeverHeal(hs: seq<Hole>, s: Side, d: Duel, time: int, m: MathLib)
    requires m.Valid()
    ensures d.Get(s).hp - 2.0 * (|hs| as real) <= HolePass(hs, d, time, m).1.Get(s).hp <= d.Get(s).hp
  {
    if hs != [] {
      HolesNeverHeal(hs[1..], s, d, time, m);
    }
  }

  /** Holes move and burn fighters but leave their special charge, their effects and the
      screen shake alone. */
  lemma {:induction false} HolesKeepCharge(hs: seq<Hole>, d: Duel, time: int, m: MathLib)
    requires m.Valid()
    ensures var r := HolePass(hs, d, time, m).1;
      r.p1.specialCharge == d.p1.specialCharge && r.p2.specialCharge == d.p2.specialCharge
      && r.p1.effects == d.p1.effects && r.p2.effects == d.p2.effects
      && r.screenShake == d.screenShake
  {
    if hs != [] {
      HolesKeepCharge(hs[1..], d, time, m);
    }
  }
}

/** The weapon system of the game loop: the shots each weapon fires (`fireBullet`,
    components/game-play.tsx:336-437) and the per-weapon fire-rate test (lines 609-629). */
module Weapons {
  import opened Seqs
  import opened Entities

  /** Milliseconds between shots: 200 for the rapid gun, 800 for the powerful one, 500 otherwise. */
  function FireRate(w: Weapon): (r: nat)
    ensures w == Rapid ==> r == 200
    ensures w == Powerful ==> r == 800
    ensures r == 500 <==> w in {Basic, Double, Triple}
  {
    match w
    case Rapid => 200
    case Powerful => 800
    case _ => 500
  }

  /** The frame test: a shot leaves only while the screen is touched and the accumulated game time,
      taken modulo the fire rate, is below the frame's duration. */
  predicate ShouldFire(touching: bool, time: nat, dt: nat, w: Weapon)
    ensures ShouldFire(touching, time, dt, w) ==> touching && dt > 0
  {
    touching && time % FireRate(w) < dt
  }

  /** The bullets one trigger pull creates, in creation order, with ids taken from the clock
      reading `now` plus their position in the volley. */
  function Shots(w: Weapon, p: Player, now: int): (r: seq<Bullet>)
    ensures |r| == (match w case Double => 2 case Triple => 3 case _ => 1)
    ensures forall i :: 0 <= i < |r| ==> r[i].power == (if w == Powerful then 3 else 1)
    ensures forall i :: 0 <= i < |r| ==> r[i].id == now + i
    ensures forall i :: 0 <= i < |r| ==> r[i].speed > 0.0 && r[i].y < p.y
    ensures p.width >= 20.0 ==>
      forall i :: 0 <= i < |r| ==> p.x <= r[i].x && r[i].x + r[i].width <= p.x + p.width
  {
    var left := p.x + p.width / 4.0 - 5.0;
    var right := p.x + p.width * 3.0 / 4.0 - 5.0;
    match w
    case Double =>
      [Bullet(now, left, p.y - 10.0, 8.0, 12.0, 8.0, 1),
       Bullet(now + 1, right, p.y - 10.0, 8.0, 12.0, 8.0, 1)]
    case Triple =>
      [Bullet(now, p.x + p.width / 2.0 - 5.0, p.y - 10.0, 10.0, 15.0, 9.0, 1),
       Bullet(now + 1, left, p.y - 5.0, 8.0, 12.0, 8.0, 1),
       Bullet(now + 2, right, p.y - 5.0, 8.0, 12.0, 8.0, 1)]
    case Rapid =>
      [Bullet(now, p.x + p.width / 2.0 - 4.0, p.y - 10.0, 8.0, 14.0, 12.0, 1)]
    case Powerful =>
      [Bullet(now, p.x + p.width / 2.0 - 7.0, p.y - 10.0, 14.0, 18.0, 7.0, 3)]
    case Basic =>
      [Bullet(now, p.x + p.width / 2.0 - 5.0, p.y - 10.0, 10.0, 15.0, 8.0, 1)]
  }

  lemma {:induction false} MulAtLeast(k: int, r: int)
    requires k >= 1 && r > 0
    ensures k * r >= r
    decreases k
  {
    if k > 1 {
      MulAtLeast(k - 1, r);
      assert k * r == (k - 1) * r + r;
    }
  }

  lemma DivModUnique(a: int, r: int, q: int, m: int)
    requires r > 0 && a == q * r + m && 0 <= m < r
    ensures a / r == q && a % r == m
  {
    var q', m' := a / r, a % r;
    assert a == q' * r + m';
    assert (q - q') * r == m' - m by {
      assert (q - q') * r == q * r - q' * r;
    }
    if q > q' {
      MulAtLeast(q - q', r);
    } else if q < q' {
      MulAtLeast(q' - q, r);
    }
  }

  /** A frame no longer than the interval fires exactly when it crosses a multiple of the interval,
      so the rate test is edge-triggered and independent of the frame rate. */
  lemma FiresIffIntervalCrossed(t: nat, dt: nat, rate: nat)
    requires 0 < dt <= rate
    ensures (t + dt) % rate < dt <==> (t + dt) / rate == t / rate + 1
    ensures (t + dt) % rate >= dt <==> (t + dt) / rate == t / rate
  {
    var q, m := t / rate, t % rate;
    if m + dt < rate {
      DivModUnique(t + dt, rate, q, m + dt);
    } else {
      DivModUnique(t + dt, rate, q + 1, m + dt - rate);
    }
  }

  /** The number of frames, of the given durations and starting at game time `t`, in which a
      player holding the screen fires weapon `w`. */
  function FireCount(t: nat, dts: seq<nat>, w: Weapon): nat
    decreases |dts|
  {
    if dts == [] then 0
    else (if ShouldFire(true, t + dts[0], dts[0], w) then 1 else 0) + FireCount(t + dts[0], dts[1..], w)
  }

  /** Holding fire through frames no longer than the interval fires once per interval boundary
      crossed: the count depends only on the start and end times, not on the frame rate. */
  lemma {:induction false} FireCountIsBoundariesCrossed(t: nat, dts: seq<nat>, w: Weapon)
    requires forall i :: 0 <= i < |dts| ==> 0 < dts[i] <= FireRate(w)
    ensures FireCount(t, dts, w) == (t + Sum(dts)) / FireRate(w) - t / FireRate(w)
    decreases |dts|
  {
    if dts != [] {
      FiresIffIntervalCrossed(t, dts[0], FireRate(w));
      FireCountIsBoundariesCrossed(t + dts[0], dts[1..], w);
    }
  }
}

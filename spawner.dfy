/** The spawner of the game loop (components/game-play.tsx:631-703): enemies on a level- and
    difficulty-scaled interval, supply crates every five seconds with level-gated weapon tiers.
    Every `Math.random()` draw is a parameter in [0, 1). */
module Spawner {
  import opened Entities

  predicate IsDraw(r: real) { 0.0 <= r < 1.0 }

  /** The left edge `Math.random() * (width - size)` of a new entity: inside the field
      whenever the entity fits in it. */
  function Column(draw: real, width: real, size: real): (x: real)
    requires IsDraw(draw)
    ensures width >= size ==> 0.0 <= x <= width - size
  {
    ScaledDraw(draw, width - size);
    Scaled(draw, width - size)
  }

  /** A draw scaled to a span. */
  function Scaled(draw: real, span: real): real
  {
    draw * span
  }

  lemma ScaledDraw(draw: real, span: real)
    requires IsDraw(draw)
    ensures span >= 0.0 ==> 0.0 <= Scaled(draw, span) <= span
  {
    if span >= 0.0 {
      var rest := 1.0 - draw;
      assert rest * span >= 0.0;
      assert rest * span + draw * span == span;
    }
  }

  /** Milliseconds between enemies: `max(1500 - 100 * level, 500) / difficulty`. */
  function SpawnInterval(level: int, difficulty: real): (r: real)
    requires difficulty > 0.0
    ensures r > 0.0 && r * difficulty >= 500.0
    ensures level <= 10 ==> r * difficulty == (1500 - 100 * level) as real
    ensures level >= 10 ==> r * difficulty == 500.0
  {
    (Max(1500 - level * 100, 500) as real) / difficulty
  }

  /** A higher level or a higher difficulty never lengthens the interval between enemies. */
  lemma SpawnIntervalShrinks(l1: int, d1: real, l2: int, d2: real)
    requires l1 <= l2 && 0.0 < d1 <= d2
    ensures SpawnInterval(l2, d2) <= SpawnInterval(l1, d1)
  {
    var a1, a2 := Max(1500 - l1 * 100, 500) as real, Max(1500 - l2 * 100, 500) as real;
    assert 0.0 < a2 <= a1;
    assert a2 / d2 <= a1 / d2 by {
      assert a1 / d2 - a2 / d2 == (a1 - a2) / d2;
    }
    assert a1 / d2 <= a1 / d1 by {
      assert a1 / d1 - a1 / d2 == a1 * (d2 - d1) / (d1 * d2);
    }
  }

  /** The enemy accumulator has passed the interval (strictly). */
  predicate EnemyDue(clock: nat, level: int, difficulty: real)
    requires difficulty > 0.0
  {
    clock as real > SpawnInterval(level, difficulty)
  }

  /** The enemy created when the interval elapses, above the top edge at a random column. */
  function NewEnemy(level: int, draw: real, width: real, now: int): (e: Enemy)
    requires IsDraw(draw)
    ensures e.id == now && e.y == -EnemySize && e.width == EnemySize && e.height == EnemySize
    ensures e.health == Min(level, 3) && (level >= 1 ==> 1 <= e.health <= 3)
    ensures e.speed == 2.0 + 0.3 * (level as real) && (level >= 1 ==> e.speed >= 2.3)
    ensures width >= EnemySize ==> 0.0 <= e.x <= width - EnemySize
  {
    Enemy(now, Column(draw, width, EnemySize), -EnemySize, EnemySize, EnemySize,
          Min(level, 3), 2.0 + (level as real) * 0.3)
  }

  /** The supply accumulator has passed five seconds (strictly). */
  predicate SupplyDue(clock: nat)
  {
    clock > 5000
  }

  /** The order in which tiers are tried: the best first. */
  function Rank(w: Weapon): nat
  {
    match w
    case Basic => 0
    case Double => 1
    case Rapid => 2
    case Triple => 3
    case Powerful => 4
  }

  /** The lowest level at which a tier can drop. */
  function MinLevel(w: Weapon): int
  {
    match w
    case Basic => 1
    case Double => 2
    case Rapid => 3
    case Triple => 4
    case Powerful => 5
  }

  /** The tier draw must fall below this bound for the tier to be chosen. */
  function Band(w: Weapon): real
  {
    match w
    case Basic => 1.0
    case Double => 0.8
    case Rapid => 0.6
    case Triple => 0.4
    case Powerful => 0.2
  }

  predicate Eligible(w: Weapon, level: int, draw: real)
  {
    w == Basic || (level >= MinLevel(w) && draw < Band(w))
  }

  /** The weapon in a weapon crate: the best-ranked tier the level unlocks whose band holds the
      draw, with the basic gun as the fallback. */
  function WeaponTier(level: int, draw: real): (w: Weapon)
    ensures Eligible(w, level, draw)
    ensures forall v :: Rank(v) > Rank(w) ==> !Eligible(v, level, draw)
    ensures w != Basic ==> level >= MinLevel(w)
  {
    if level >= 5 && draw < 0.2 then Powerful
    else if level >= 4 && draw < 0.4 then Triple
    else if level >= 3 && draw < 0.6 then Rapid
    else if level >= 2 && draw < 0.8 then Double
    else Basic
  }

  /** At level 1 only the basic gun can drop, whatever the draw. */
  lemma FirstLevelDropsBasic(draw: real)
    ensures WeaponTier(1, draw) == Basic
  {
  }

  /** The crate considered when the five seconds elapse: present only when the first draw is
      below 0.4; a score crate worth 20 when the second is below 0.6, otherwise a weapon crate. */
  function SupplyDrop(level: int, chance: real, kind: real, tier: real, column: real, width: real, now: int): (r: Option<Supply>)
    requires IsDraw(column)
    ensures r.Some? <==> chance < 0.4
    ensures r.Some? ==> r.value.kind != Health
    ensures r.Some? ==> (r.value.kind.ScoreCrate? <==> kind < 0.6)
    ensures r.Some? && r.value.kind.ScoreCrate? ==> r.value.kind.points == 20
    ensures r.Some? && r.value.kind.WeaponCrate? ==> r.value.kind.weapon == WeaponTier(level, tier)
    ensures r.Some? ==> r.value.id == now && r.value.y == -SupplySize
    ensures r.Some? ==> r.value.width == SupplySize && r.value.height == SupplySize
    ensures r.Some? && width >= SupplySize ==> 0.0 <= r.value.x <= width - SupplySize
  {
    if chance < 0.4 then
      var k := if kind < 0.6 then ScoreCrate(20) else WeaponCrate(WeaponTier(level, tier));
      Some(Supply(now, Column(column, width, SupplySize), -SupplySize, SupplySize, SupplySize, k))
    else None
  }
}

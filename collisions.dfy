/** The collision resolver `checkCollisions` (components/game-play.tsx:440-582), in its fixed order:
    bullets against enemies, then the player against the surviving enemies, then the player
    against the supplies. */
module Collisions {
  import opened Seqs
  import opened Entities

  predicate Strikes(b: Bullet, e: Enemy) { Overlaps(BulletBox(b), EnemyBox(e)) }
  predicate Crashes(p: Player, e: Enemy) { Overlaps(PlayerBox(p), EnemyBox(e)) }
  predicate Grabs(p: Player, s: Supply) { Overlaps(PlayerBox(p), SupplyBox(s)) }

  predicate Alive(es: seq<Enemy>)
  {
    forall i :: 0 <= i < |es| ==> es[i].health >= 1
  }

  /** An enemy with its health blanked out: what a hit cannot change. */
  function Body(e: Enemy): Enemy { e.(health := 0) }

  function Bodies(es: seq<Enemy>): (r: seq<Enemy>)
    ensures |r| == |es| && forall i :: 0 <= i < |es| ==> r[i] == Body(es[i])
  {
    seq(|es|, i requires 0 <= i < |es| => Body(es[i]))
  }

  /** The explosion at the point of impact, sized by the bullet's power. */
  function Impact(b: Bullet, now: int): Explosion
  {
    Explosion(now, b.x + b.width / 2.0, b.y + b.height / 2.0, (b.power * 10 + 20) as real)
  }

  /** The larger explosion at the centre of a destroyed enemy. */
  function Burst(e: Enemy, now: int): Explosion
  {
    Explosion(now, e.x + e.width / 2.0, e.y + e.height / 2.0, 40.0)
  }

  /** The enemy a bullet hits: scanning the list from its end, the first whose hitbox it overlaps. */
  function Target(b: Bullet, es: seq<Enemy>): (r: Option<nat>)
    ensures r.Some? ==> r.value < |es|
    decreases |es|
  {
    if es == [] then None
    else if Strikes(b, es[|es| - 1]) then Some(|es| - 1)
    else Target(b, es[..|es| - 1])
  }

  /** The target is struck and no enemy after it is; without a target, no enemy is struck. */
  lemma {:induction false} TargetSpec(b: Bullet, es: seq<Enemy>)
    ensures var r := Target(b, es);
      && (r.Some? ==> Strikes(b, es[r.value]))
      && (r.Some? ==> forall k :: r.value < k < |es| ==> !Strikes(b, es[k]))
      && (r.None? ==> forall k :: 0 <= k < |es| ==> !Strikes(b, es[k]))
    decreases |es|
  {
    if es != [] && !Strikes(b, es[|es| - 1]) {
      var front := es[..|es| - 1];
      TargetSpec(b, front);
      assert forall k :: 0 <= k < |front| ==> front[k] == es[k];
    }
  }

  datatype Strike = Strike(enemies: seq<Enemy>, hit: bool, killed: bool, explosions: seq<Explosion>)

  /** The enemy list after enemy `j` takes `damage`: spliced out once its health is no longer
      positive. */
  function Hurt(es: seq<Enemy>, j: nat, damage: int): (r: seq<Enemy>)
    requires j < |es|
    ensures |r| == |es| - (if es[j].health - damage <= 0 then 1 else 0)
  {
    var e := es[j].(health := es[j].health - damage);
    if e.health <= 0 then es[..j] + es[j + 1..] else es[j := e]
  }

  /** A hit lowers enemy `j`'s health by exactly the damage, and removes it once the health is no
      longer positive; every other enemy is kept, unchanged and in place; no enemy is left with
      health below one. */
  lemma HurtSpec(es: seq<Enemy>, j: nat, damage: int)
    requires j < |es|
    ensures var r := Hurt(es, j, damage);
      var d := if es[j].health - damage <= 0 then 1 else 0;
      && (forall k :: 0 <= k < j ==> r[k] == es[k])
      && (forall k :: j < k < |es| ==> r[k - d] == es[k])
      && (es[j].health - damage > 0 ==> r[j] == es[j].(health := es[j].health - damage))
      && (Alive(es) ==> Alive(r))
  {
  }

  /** A hit keeps the other enemies in order and changes nothing but health. */
  lemma HurtKeepsBodies(es: seq<Enemy>, j: nat, damage: int)
    requires j < |es|
    ensures Subseq(Bodies(Hurt(es, j, damage)), Bodies(es))
  {
    var r := Hurt(es, j, damage);
    if es[j].health - damage <= 0 {
      assert Bodies(r) == Bodies(es)[..j] + Bodies(es)[j + 1..];
      SubseqSplice(Bodies(es), j);
    } else {
      assert Bodies(r) == Bodies(es);
      SubseqRefl(Bodies(es));
    }
  }

  /** One bullet against the current enemy list. */
  function StrikeOne(b: Bullet, es: seq<Enemy>, now: int): (r: Strike)
    ensures r.hit <==> Target(b, es).Some?
    ensures r.killed ==> r.hit
  {
    match Target(b, es)
    case None => Strike(es, false, false, [])
    case Some(j) =>
      var killed := es[j].health - b.power <= 0;
      Strike(Hurt(es, j, b.power), true, killed, [Impact(b, now)] + (if killed then [Burst(es[j], now)] else []))
  }

  /** A bullet hits exactly when its hitbox overlaps some enemy's. A miss changes nothing. A hit
      picks the last enemy in the list that it overlaps: that enemy loses exactly the bullet's
      power and is removed once its health is no longer positive, every other enemy keeps its
      place and value, and the hit makes an impact explosion, plus a burst for a kill. */
  lemma StrikeOneSpec(b: Bullet, es: seq<Enemy>, now: int)
    ensures var r := StrikeOne(b, es, now);
      && (r.hit <==> exists k :: 0 <= k < |es| && Strikes(b, es[k]))
      && (!r.hit ==> r.enemies == es && !r.killed && r.explosions == [])
    ensures var r := StrikeOne(b, es, now);
      r.hit ==> exists j :: 0 <= j < |es| && HitAt(b, es, now, j, r)
  {
    TargetSpec(b, es);
    var r := StrikeOne(b, es, now);
    if r.hit {
      var j := Target(b, es).value;
      HurtSpec(es, j, b.power);
      assert HitAt(b, es, now, j, r);
    }
  }

  /** Strike `r` is a hit on enemy `j`: the last one the bullet overlaps, wounded by exactly the
      bullet's power and removed once its health is no longer positive, the others unchanged and
      in place. */
  ghost predicate HitAt(b: Bullet, es: seq<Enemy>, now: int, j: nat, r: Strike)
    requires j < |es|
  {
    var d := if r.killed then 1 else 0;
    && Strikes(b, es[j]) && (forall k :: j < k < |es| ==> !Strikes(b, es[k]))
    && r.killed == (es[j].health <= b.power)
    && r.explosions == [Impact(b, now)] + (if r.killed then [Burst(es[j], now)] else [])
    && |r.enemies| == |es| - d
    && (forall k :: 0 <= k < j ==> r.enemies[k] == es[k])
    && (forall k :: j < k < |es| ==> r.enemies[k - d] == es[k])
    && (!r.killed ==> r.enemies[j] == es[j].(health := es[j].health - b.power))
  }

  /** What the bullet pass leaves: surviving bullets, surviving enemies, how many enemies it
      destroyed, whether any bullet hit (`enemiesDestroyed`), and the explosions it created. */
  datatype Volley = Volley(bullets: seq<Bullet>, enemies: seq<Enemy>, kills: nat, hit: bool, explosions: seq<Explosion>)

  /** The bullet pass: the last bullet strikes first, then the rest, against what it left. */
  function BulletPass(bs: seq<Bullet>, es: seq<Enemy>, now: int): (r: Volley)
    ensures |r.bullets| <= |bs| && r.kills <= |bs| - |r.bullets|
    ensures r.hit <==> |r.bullets| < |bs|
    decreases |bs|
  {
    if bs == [] then Volley([], es, 0, false, [])
    else
      var b := bs[|bs| - 1];
      var s := StrikeOne(b, es, now);
      var v := BulletPass(bs[..|bs| - 1], s.enemies, now);
      Volley(v.bullets + (if s.hit then [] else [b]), v.enemies,
             v.kills + (if s.killed then 1 else 0), v.hit || s.hit, s.explosions + v.explosions)
  }

  /** `checkCollisions`' inner loop: the enemies scanned from the end for the first one the bullet
      overlaps; -1 when there is none. */
  method Aim(bullet: Bullet, es: seq<Enemy>) returns (j: int)
    ensures j < 0 ==> Target(bullet, es).None?
    ensures j >= 0 ==> Target(bullet, es) == Some(j)
  {
    TargetSpec(bullet, es);
    j := |es| - 1;
    while j >= 0
      invariant -1 <= j < |es|
      invariant forall k :: j < k < |es| ==> !Strikes(bullet, es[k])
      decreases j
    {
      if Strikes(bullet, es[j]) {
        return;
      }
      j := j - 1;
    }
  }

  /** Unfolds the bullet pass over `bs[..n]` by its last bullet. */
  lemma PassLast(bs: seq<Bullet>, n: nat, es: seq<Enemy>, now: int)
    requires 0 < n <= |bs|
    ensures var s := StrikeOne(bs[n - 1], es, now);
      var v := BulletPass(bs[..n - 1], s.enemies, now);
      BulletPass(bs[..n], es, now) ==
        Volley(v.bullets + (if s.hit then [] else [bs[n - 1]]), v.enemies,
               v.kills + (if s.killed then 1 else 0), v.hit || s.hit, s.explosions + v.explosions)
  {
    assert bs[..n][..n - 1] == bs[..n - 1];
  }

  /** One turn of `checkCollisions`' first loop: the bullet looks for its enemy and, on a hit,
      wounds it in the working copy of the enemy list, splicing it out once destroyed. */
  method Shoot(bullet: Bullet, es: seq<Enemy>, now: int) returns (s: Strike)
    ensures s == StrikeOne(bullet, es, now)
  {
    var j := Aim(bullet, es);
    if j < 0 {
      return Strike(es, false, false, []);
    }
    var enemy := es[j];
    enemy := enemy.(health := enemy.health - bullet.power);
    var booms := [Impact(bullet, now)];
    if enemy.health <= 0 {
      booms := booms + [Burst(enemy, now)];
      s := Strike(es[..j] + es[j + 1..], true, true, booms);
    } else {
      s := Strike(es[j := enemy], true, false, booms);
    }
  }

  /** A partial pass completed by the part of the loop already done: the bullets `rest` kept
      behind it, `kills` destroyed, `hit` recorded and the explosions `booms` created before it. */
  function Finish(r: Volley, rest: seq<Bullet>, kills: nat, hit: bool, booms: seq<Explosion>): Volley
  {
    Volley(r.bullets + rest, r.enemies, r.kills + kills, r.hit || hit, booms + r.explosions)
  }

  /** The bullet loop's invariant: `n` bullets remain to be scanned, the working bullet list
      still starts with them, and finishing the pass over them from the working enemy list
      completes the whole pass. */
  ghost predicate PassResumes(bs: seq<Bullet>, es: seq<Enemy>, now: int, n: nat, rb: seq<Bullet>,
                              re: seq<Enemy>, kills: nat, hit: bool, booms: seq<Explosion>)
  {
    && n <= |bs| && n <= |rb| && rb[..n] == bs[..n]
    && BulletPass(bs, es, now) == Finish(BulletPass(bs[..n], re, now), rb[n..], kills, hit, booms)
  }

  lemma PassStarts(bs: seq<Bullet>, es: seq<Enemy>, now: int)
    ensures PassResumes(bs, es, now, |bs|, bs, es, 0, false, [])
  {
    var v := BulletPass(bs, es, now);
    assert bs[..|bs|] == bs && bs[|bs|..] == [];
    assert v.bullets + [] == v.bullets && [] + v.explosions == v.explosions;
  }

  /** Moving one bullet's outcome from the pass into the part of the loop already done. */
  lemma FinishShift(total: Volley, v: Volley, s: Strike, b: Bullet, n: nat, rb: seq<Bullet>,
                    kills: nat, hit: bool, booms: seq<Explosion>)
    requires 0 < n <= |rb| && rb[n - 1] == b
    requires total ==
      Finish(Volley(v.bullets + (if s.hit then [] else [b]), v.enemies, v.kills + (if s.killed then 1 else 0),
                    v.hit || s.hit, s.explosions + v.explosions),
             rb[n..], kills, hit, booms)
    ensures total ==
      Finish(v, (if s.hit then rb[..n - 1] + rb[n..] else rb)[n - 1..], kills + (if s.killed then 1 else 0),
             hit || s.hit, booms + s.explosions)
  {
    var kept := if s.hit then [] else [b];
    var rb' := if s.hit then rb[..n - 1] + rb[n..] else rb;
    assert rb'[n - 1..] == kept + rb[n..];
    assert v.bullets + kept + rb[n..] == v.bullets + (kept + rb[n..]);
    assert booms + (s.explosions + v.explosions) == booms + s.explosions + v.explosions;
  }

  /** The scanned prefix of the working bullet list, one bullet shorter. */
  lemma PrefixShift(bs: seq<Bullet>, rb: seq<Bullet>, n: nat, drop: bool)
    requires 0 < n <= |bs| && n <= |rb| && rb[..n] == bs[..n]
    ensures rb[n - 1] == bs[n - 1]
    ensures (if drop then rb[..n - 1] + rb[n..] else rb)[..n - 1] == bs[..n - 1]
  {
    assert rb[..n][n - 1] == rb[n - 1] && bs[..n][n - 1] == bs[n - 1];
    assert rb[..n - 1] == rb[..n][..n - 1] && bs[..n - 1] == bs[..n][..n - 1];
  }

  /** One turn of the bullet loop keeps its invariant. */
  lemma PassResumesStep(bs: seq<Bullet>, es: seq<Enemy>, now: int, n: nat, rb: seq<Bullet>,
                        re: seq<Enemy>, kills: nat, hit: bool, booms: seq<Explosion>, s: Strike)
    requires n > 0 && PassResumes(bs, es, now, n, rb, re, kills, hit, booms)
    requires s == StrikeOne(rb[n - 1], re, now)
    ensures s.hit ==> PassResumes(bs, es, now, n - 1, rb[..n - 1] + rb[n..], s.enemies,
                                  kills + (if s.killed then 1 else 0), true, booms + s.explosions)
    ensures !s.hit ==> PassResumes(bs, es, now, n - 1, rb, s.enemies, kills, hit, booms + s.explosions)
  {
    PrefixShift(bs, rb, n, s.hit);
    PassLast(bs, n, re, now);
    FinishShift(BulletPass(bs, es, now), BulletPass(bs[..n - 1], s.enemies, now), s, bs[n - 1], n, rb,
                kills, hit, booms);
  }

  /** Once no bullet remains to be scanned, the working state is the whole pass. */
  lemma PassEnds(bs: seq<Bullet>, es: seq<Enemy>, now: int, rb: seq<Bullet>, re: seq<Enemy>,
                 kills: nat, hit: bool, booms: seq<Explosion>)
    requires PassResumes(bs, es, now, 0, rb, re, kills, hit, booms)
    ensures BulletPass(bs, es, now) == Volley(rb, re, kills, hit, booms)
  {
    assert bs[..0] == [] && rb[0..] == rb;
    assert BulletPass(bs[..0], re, now) == Volley([], re, 0, false, []);
    assert [] + rb == rb && booms + [] == booms;
  }

  /** `checkCollisions`' first loop, over working copies of the two lists: bullets scanned from the
      end; a bullet that hits is removed from its list and stops there. */
  method ResolveBullets(bs: seq<Bullet>, es: seq<Enemy>, now: int) returns (v: Volley)
    ensures v == BulletPass(bs, es, now)
  {
    var remainingBullets := bs;
    var remainingEnemies := es;
    var kills: nat := 0;
    var hit := false;
    var booms: seq<Explosion> := [];
    PassStarts(bs, es, now);
    var i := |bs| - 1;
    while i >= 0
      invariant -1 <= i < |bs|
      invariant PassResumes(bs, es, now, i + 1, remainingBullets, remainingEnemies, kills, hit, booms)
      decreases i
    {
      var bullet := remainingBullets[i];
      var s := Shoot(bullet, remainingEnemies, now);
      PassResumesStep(bs, es, now, i + 1, remainingBullets, remainingEnemies, kills, hit, booms, s);
      if s.hit {
        remainingBullets := remainingBullets[..i] + remainingBullets[i + 1..];
        kills := kills + (if s.killed then 1 else 0);
        hit := true;
      }
      booms := booms + s.explosions;
      remainingEnemies := s.enemies;
      i := i - 1;
    }
    PassEnds(bs, es, now, remainingBullets, remainingEnemies, kills, hit, booms);
    v := Volley(remainingBullets, remainingEnemies, kills, hit, booms);
  }

  /** The pass removes exactly the bullets that hit, destroys `kills` enemies and creates one
      explosion per hit plus one per kill. */
  lemma {:induction false} BulletPassCounts(bs: seq<Bullet>, es: seq<Enemy>, now: int)
    ensures var v := BulletPass(bs, es, now);
      && |v.bullets| <= |bs|
      && |v.enemies| + v.kills == |es|
      && (v.hit <==> |v.bullets| < |bs|)
      && |v.explosions| == |bs| - |v.bullets| + v.kills
    decreases |bs|
  {
    if bs != [] {
      var s := StrikeOne(bs[|bs| - 1], es, now);
      BulletPassCounts(bs[..|bs| - 1], s.enemies, now);
    }
  }

  /** When no bullet hits, nothing changes: the source skips writing the lists back. */
  lemma {:induction false} BulletPassQuiet(bs: seq<Bullet>, es: seq<Enemy>, now: int)
    ensures var v := BulletPass(bs, es, now);
      !v.hit ==> v.bullets == bs && v.enemies == es && v.kills == 0 && v.explosions == []
    decreases |bs|
  {
    if bs != [] {
      var s := StrikeOne(bs[|bs| - 1], es, now);
      BulletPassQuiet(bs[..|bs| - 1], s.enemies, now);
      assert bs[..|bs| - 1] + [bs[|bs| - 1]] == bs;
    }
  }

  /** Surviving bullets keep their relative order. */
  lemma {:induction false} BulletPassKeepsBulletOrder(bs: seq<Bullet>, es: seq<Enemy>, now: int)
    ensures Subseq(BulletPass(bs, es, now).bullets, bs)
    decreases |bs|
  {
    if bs == [] {
      SubseqRefl(bs);
    } else {
      var b := bs[|bs| - 1];
      var s := StrikeOne(b, es, now);
      var v := BulletPass(bs[..|bs| - 1], s.enemies, now);
      BulletPassKeepsBulletOrder(bs[..|bs| - 1], s.enemies, now);
      assert bs[..|bs| - 1] + [b] == bs;
      if s.hit {
        assert v.bullets + [] == v.bullets;
        SubseqSnocRight(v.bullets, bs[..|bs| - 1], b);
      } else {
        SubseqSnoc(v.bullets, bs[..|bs| - 1], b);
      }
    }
  }

  /** Surviving enemies keep their relative order and differ from what they were at most in
      their health. */
  lemma {:induction false} BulletPassKeepsEnemyOrder(bs: seq<Bullet>, es: seq<Enemy>, now: int)
    ensures Subseq(Bodies(BulletPass(bs, es, now).enemies), Bodies(es))
    decreases |bs|
  {
    if bs == [] {
      SubseqRefl(Bodies(es));
    } else {
      var b := bs[|bs| - 1];
      var s := StrikeOne(b, es, now);
      var v := BulletPass(bs[..|bs| - 1], s.enemies, now);
      BulletPassKeepsEnemyOrder(bs[..|bs| - 1], s.enemies, now);
      if s.hit {
        HurtKeepsBodies(es, Target(b, es).value, b.power);
      } else {
        SubseqRefl(Bodies(es));
      }
      SubseqTrans(Bodies(v.enemies), Bodies(s.enemies), Bodies(es));
    }
  }

  /** No enemy is left standing with health zero or less. */
  lemma {:induction false} BulletPassKeepsAlive(bs: seq<Bullet>, es: seq<Enemy>, now: int)
    requires Alive(es)
    ensures Alive(BulletPass(bs, es, now).enemies)
    decreases |bs|
  {
    if bs != [] {
      var s := StrikeOne(bs[|bs| - 1], es, now);
      BulletPassKeepsAlive(bs[..|bs| - 1], s.enemies, now);
    }
  }

  /** Some enemy overlaps the player. */
  predicate Struck(p: Player, es: seq<Enemy>)
  {
    exists k :: 0 <= k < |es| && Crashes(p, es[k])
  }

  /** The explosion over the player when the game ends. */
  function Wreck(p: Player, now: int): Explosion
  {
    Explosion(now, p.x + p.width / 2.0, p.y + p.height / 2.0, 60.0)
  }

  /** The player scan over the enemies that survived the bullet pass, stopping at the first
      overlap. */
  method FindCrash(p: Player, es: seq<Enemy>) returns (crashed: bool)
    ensures crashed <==> Struck(p, es)
  {
    for k := 0 to |es|
      invariant forall m :: 0 <= m < k ==> !Crashes(p, es[m])
    {
      if Crashes(p, es[k]) {
        return true;
      }
    }
    return false;
  }

  /** The score after picking up a crate: only a score crate adds its points. */
  function Credit(kind: SupplyKind, score: int): int
  {
    match kind
    case ScoreCrate(n) => score + n
    case _ => score
  }

  /** The weapon after picking up a crate: only a weapon crate replaces it. */
  function Equip(kind: SupplyKind, weapon: Weapon): Weapon
  {
    match kind
    case WeaponCrate(w) => w
    case _ => weapon
  }

  /** What the supply pass leaves: kept crates, score, weapon, and whether any crate was taken. */
  datatype Haul = Haul(supplies: seq<Supply>, score: int, weapon: Weapon, collected: bool)

  /** The supply `filter`: crates the player overlaps are dropped and applied in list order. */
  function Collect(p: Player, ss: seq<Supply>, score: int, weapon: Weapon): (r: Haul)
    ensures |r.supplies| <= |ss|
    ensures r.collected <==> |r.supplies| < |ss|
    decreases |ss|
  {
    if ss == [] then Haul([], score, weapon, false)
    else if Grabs(p, ss[0]) then
      Collect(p, ss[1..], Credit(ss[0].kind, score), Equip(ss[0].kind, weapon)).(collected := true)
    else
      var h := Collect(p, ss[1..], score, weapon);
      h.(supplies := [ss[0]] + h.supplies)
  }

  /** The supply loop's invariant: the crates from `k` on remain, and filtering them from the
      running score and weapon completes the whole pass. */
  ghost predicate CollectResumes(p: Player, ss: seq<Supply>, score: int, weapon: Weapon, k: nat,
                                 kept: seq<Supply>, total: int, current: Weapon, collected: bool)
  {
    && k <= |ss|
    && var rest := Collect(p, ss[k..], total, current);
       Collect(p, ss, score, weapon) == Haul(kept + rest.supplies, rest.score, rest.weapon, collected || rest.collected)
  }

  /** One turn of the supply loop keeps its invariant. */
  lemma CollectResumesStep(p: Player, ss: seq<Supply>, score: int, weapon: Weapon, k: nat,
                           kept: seq<Supply>, total: int, current: Weapon, collected: bool)
    requires k < |ss| && CollectResumes(p, ss, score, weapon, k, kept, total, current, collected)
    ensures Grabs(p, ss[k]) ==>
      CollectResumes(p, ss, score, weapon, k + 1, kept, Credit(ss[k].kind, total), Equip(ss[k].kind, current), true)
    ensures !Grabs(p, ss[k]) ==>
      CollectResumes(p, ss, score, weapon, k + 1, kept + [ss[k]], total, current, collected)
  {
    assert ss[k..][0] == ss[k] && ss[k..][1..] == ss[k + 1..];
    if !Grabs(p, ss[k]) {
      var rest := Collect(p, ss[k + 1..], total, current);
      assert kept + ([ss[k]] + rest.supplies) == (kept + [ss[k]]) + rest.supplies;
    }
  }

  /** The supply `filter` as it runs: one crate at a time, each overlapping crate applied to the
      running score and weapon and dropped, the others kept in order. */
  method CollectSupplies(p: Player, ss: seq<Supply>, score: int, weapon: Weapon) returns (h: Haul)
    ensures h == Collect(p, ss, score, weapon)
  {
    var kept: seq<Supply> := [];
    var total := score;
    var current := weapon;
    var collected := false;
    assert ss[0..] == ss;
    assert [] + Collect(p, ss, score, weapon).supplies == Collect(p, ss, score, weapon).supplies;
    for k := 0 to |ss|
      invariant CollectResumes(p, ss, score, weapon, k, kept, total, current, collected)
    {
      CollectResumesStep(p, ss, score, weapon, k, kept, total, current, collected);
      if Grabs(p, ss[k]) {
        collected := true;
        total := Credit(ss[k].kind, total);
        current := Equip(ss[k].kind, current);
      } else {
        kept := kept + [ss[k]];
      }
    }
    assert ss[|ss|..] == [] && kept + [] == kept;
    h := Haul(kept, total, current, collected);
  }

  /** The points of all score crates the player overlaps. */
  function Bonus(p: Player, ss: seq<Supply>): int
    decreases |ss|
  {
    if ss == [] then 0
    else (if Grabs(p, ss[0]) && ss[0].kind.ScoreCrate? then ss[0].kind.points else 0) + Bonus(p, ss[1..])
  }

  /** The weapon of the last weapon crate in the list that the player overlaps, if any. */
  function LastWeapon(p: Player, ss: seq<Supply>, weapon: Weapon): Weapon
    decreases |ss|
  {
    if ss == [] then weapon
    else
      var s := ss[|ss| - 1];
      if Grabs(p, s) && s.kind.WeaponCrate? then s.kind.weapon else LastWeapon(p, ss[..|ss| - 1], weapon)
  }

  lemma {:induction false} LastWeaponFront(p: Player, ss: seq<Supply>, weapon: Weapon)
    requires ss != []
    ensures LastWeapon(p, ss, weapon) ==
      LastWeapon(p, ss[1..], if Grabs(p, ss[0]) then Equip(ss[0].kind, weapon) else weapon)
    decreases |ss|
  {
    if |ss| > 1 {
      var init := ss[..|ss| - 1];
      assert init[1..] == ss[1..][..|ss[1..]| - 1];
      assert ss[1..][|ss[1..]| - 1] == ss[|ss| - 1];
      LastWeaponFront(p, init, weapon);
    }
  }

  /** The filter of the supply pass: crates the player does not overlap. */
  function Ungrabbed(p: Player): Supply -> bool { (s: Supply) => !Grabs(p, s) }

  /** A supply pass that takes nothing keeps every crate. */
  lemma {:induction false} CollectQuiet(p: Player, ss: seq<Supply>, score: int, weapon: Weapon)
    ensures !Collect(p, ss, score, weapon).collected ==> Collect(p, ss, score, weapon).supplies == ss
    decreases |ss|
  {
    if ss != [] && !Grabs(p, ss[0]) {
      CollectQuiet(p, ss[1..], score, weapon);
      assert [ss[0]] + ss[1..] == ss;
    }
  }

  /** The supply pass keeps exactly the crates the player does not overlap, in order. */
  lemma {:induction false} CollectKeepsTheRest(p: Player, ss: seq<Supply>, score: int, weapon: Weapon)
    ensures Collect(p, ss, score, weapon).supplies == Keep(ss, Ungrabbed(p))
    decreases |ss|
  {
    if ss != [] {
      if Grabs(p, ss[0]) {
        CollectKeepsTheRest(p, ss[1..], Credit(ss[0].kind, score), Equip(ss[0].kind, weapon));
      } else {
        CollectKeepsTheRest(p, ss[1..], score, weapon);
      }
    }
  }

  /** The supply pass adds the points of every score crate taken. */
  lemma {:induction false} CollectScores(p: Player, ss: seq<Supply>, score: int, weapon: Weapon)
    ensures Collect(p, ss, score, weapon).score == score + Bonus(p, ss)
    decreases |ss|
  {
    if ss != [] {
      if Grabs(p, ss[0]) {
        CollectScores(p, ss[1..], Credit(ss[0].kind, score), Equip(ss[0].kind, weapon));
      } else {
        CollectScores(p, ss[1..], score, weapon);
      }
    }
  }

  /** The supply pass leaves the weapon of the last weapon crate taken. */
  lemma {:induction false} CollectEquipsLast(p: Player, ss: seq<Supply>, score: int, weapon: Weapon)
    ensures Collect(p, ss, score, weapon).weapon == LastWeapon(p, ss, weapon)
    decreases |ss|
  {
    if ss != [] {
      LastWeaponFront(p, ss, weapon);
      if Grabs(p, ss[0]) {
        CollectEquipsLast(p, ss[1..], Credit(ss[0].kind, score), Equip(ss[0].kind, weapon));
      } else {
        CollectEquipsLast(p, ss[1..], score, weapon);
      }
    }
  }

  /** The supply pass reports a pickup exactly when some crate overlaps the player. */
  lemma {:induction false} CollectReportsPickup(p: Player, ss: seq<Supply>, score: int, weapon: Weapon)
    ensures Collect(p, ss, score, weapon).collected <==> exists k :: 0 <= k < |ss| && Grabs(p, ss[k])
    decreases |ss|
  {
    if ss != [] {
      if Grabs(p, ss[0]) {
        CollectReportsPickup(p, ss[1..], Credit(ss[0].kind, score), Equip(ss[0].kind, weapon));
      } else {
        CollectReportsPickup(p, ss[1..], score, weapon);
        assert forall k :: 1 <= k < |ss| ==> ss[k] == ss[1..][k - 1];
      }
    }
  }

  /** A health crate is taken away but changes neither score nor weapon. */
  lemma {:induction false} HealthCratesChangeNothing(p: Player, ss: seq<Supply>, score: int, weapon: Weapon)
    requires forall k :: 0 <= k < |ss| ==> ss[k].kind == Health
    ensures Collect(p, ss, score, weapon).score == score
    ensures Collect(p, ss, score, weapon).weapon == weapon
    decreases |ss|
  {
    if ss != [] {
      HealthCratesChangeNothing(p, ss[1..], score, weapon);
    }
  }

  /** Picking up crates never lowers the score when no crate carries negative points. */
  lemma {:induction false} BonusNonNegative(p: Player, ss: seq<Supply>)
    requires forall k :: 0 <= k < |ss| ==> (ss[k].kind.ScoreCrate? ==> ss[k].kind.points >= 0)
    ensures Bonus(p, ss) >= 0
    decreases |ss|
  {
    if ss != [] {
      BonusNonNegative(p, ss[1..]);
    }
  }
}

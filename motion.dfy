/** Movement and culling (components/game-play.tsx:705-733) and the player's pointer-following
    clamp (lines 262-274). Each move is a `map` followed by a `filter`. */
module Motion {
  import opened Seqs
  import opened Entities

  /** Every enemy one step further down, by its own speed. */
  function Fallen(es: seq<Enemy>): (r: seq<Enemy>)
    ensures |r| == |es|
    ensures forall i :: 0 <= i < |es| ==> r[i] == es[i].(y := es[i].y + es[i].speed)
  {
    seq(|es|, i requires 0 <= i < |es| => es[i].(y := es[i].y + es[i].speed))
  }

  /** Every supply 1.5 further down. */
  function Drifted(ss: seq<Supply>): (r: seq<Supply>)
    ensures |r| == |ss|
    ensures forall i :: 0 <= i < |ss| ==> r[i] == ss[i].(y := ss[i].y + 1.5)
  {
    seq(|ss|, i requires 0 <= i < |ss| => ss[i].(y := ss[i].y + 1.5))
  }

  /** Every bullet one step further up, by its own speed. */
  function Risen(bs: seq<Bullet>): (r: seq<Bullet>)
    ensures |r| == |bs|
    ensures forall i :: 0 <= i < |bs| ==> r[i] == bs[i].(y := bs[i].y - bs[i].speed)
  {
    seq(|bs|, i requires 0 <= i < |bs| => bs[i].(y := bs[i].y - bs[i].speed))
  }

  /** The filter of the enemy and supply moves: still above the bottom edge. */
  function EnemyOnField(height: real): Enemy -> bool { (e: Enemy) => e.y < height }
  function SupplyOnField(height: real): Supply -> bool { (s: Supply) => s.y < height }

  /** The filter of the bullet move: the bottom edge still below the top of the field. */
  predicate BulletOnField(b: Bullet) { b.y + b.height > 0.0 }

  /** Enemies after the move: every survivor is still above the bottom edge, and the survivors
      keep their original order. */
  function MoveEnemies(es: seq<Enemy>, height: real): (r: seq<Enemy>)
    ensures |r| <= |es|
    ensures forall k :: 0 <= k < |r| ==> r[k].y < height
    ensures Subseq(r, Fallen(es))
  {
    KeepIsSubseq(Fallen(es), EnemyOnField(height));
    Keep(Fallen(es), EnemyOnField(height))
  }

  /** Every survivor is a moved enemy, and every moved enemy still above the bottom edge
      survives. */
  lemma MoveEnemiesSurvivors(es: seq<Enemy>, height: real)
    ensures var r := MoveEnemies(es, height);
      && (forall k :: 0 <= k < |r| ==> r[k] in Fallen(es))
      && (forall i :: 0 <= i < |es| && Fallen(es)[i].y < height ==> Fallen(es)[i] in r)
  {
    KeepMembers(Fallen(es), EnemyOnField(height));
  }

  /** Supplies after the move: every survivor is still above the bottom edge, and the survivors
      keep their original order. */
  function MoveSupplies(ss: seq<Supply>, height: real): (r: seq<Supply>)
    ensures |r| <= |ss|
    ensures forall k :: 0 <= k < |r| ==> r[k].y < height
    ensures Subseq(r, Drifted(ss))
  {
    KeepIsSubseq(Drifted(ss), SupplyOnField(height));
    Keep(Drifted(ss), SupplyOnField(height))
  }

  /** Every survivor is a moved supply, and every moved supply still above the bottom edge
      survives. */
  lemma MoveSuppliesSurvivors(ss: seq<Supply>, height: real)
    ensures var r := MoveSupplies(ss, height);
      && (forall k :: 0 <= k < |r| ==> r[k] in Drifted(ss))
      && (forall i :: 0 <= i < |ss| && Drifted(ss)[i].y < height ==> Drifted(ss)[i] in r)
  {
    KeepMembers(Drifted(ss), SupplyOnField(height));
  }

  /** Bullets after the move: every survivor still reaches into the field, and the survivors keep
      their original order. */
  function MoveBullets(bs: seq<Bullet>): (r: seq<Bullet>)
    ensures |r| <= |bs|
    ensures forall k :: 0 <= k < |r| ==> r[k].y + r[k].height > 0.0
    ensures Subseq(r, Risen(bs))
  {
    KeepIsSubseq(Risen(bs), BulletOnField);
    Keep(Risen(bs), BulletOnField)
  }

  /** Every survivor is a moved bullet, and every moved bullet still reaching into the field
      survives. */
  lemma MoveBulletsSurvivors(bs: seq<Bullet>)
    ensures var r := MoveBullets(bs);
      && (forall k :: 0 <= k < |r| ==> r[k] in Risen(bs))
      && (forall i :: 0 <= i < |bs| && Risen(bs)[i].y + Risen(bs)[i].height > 0.0 ==> Risen(bs)[i] in r)
  {
    KeepMembers(Risen(bs), BulletOnField);
  }

  /** The left edge that centres a box of the given size under the pointer. */
  function Centred(target: real, size: real): real
  {
    target - size / 2.0
  }

  /** The player's new left edge for a pointer at `target`: centred under the pointer, clamped to
      the field. Within the field it is the reachable position nearest to the centred one. */
  function ClampX(target: real, width: real, size: real): (x: real)
    ensures size <= width ==> 0.0 <= x <= width - size
    ensures size <= width ==>
      forall q :: 0.0 <= q <= width - size ==> Dist(x, Centred(target, size)) <= Dist(q, Centred(target, size))
  {
    MaxR(0.0, MinR(width - size, Centred(target, size)))
  }
}

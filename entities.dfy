/** The value records the game loop works on (components/game-play.tsx), their hitboxes and the
    overlap test every collision uses. Coordinates grow rightwards and downwards, as on screen. */
module Entities {

  datatype Option<T> = None | Some(value: T)

  /** The five weapon variants (`WeaponType`). */
  datatype Weapon = Basic | Double | Triple | Rapid | Powerful

  /** What a supply crate carries: `HEALTH` (no payload), `WEAPON` with the weapon it grants,
      or `SCORE` with the points it adds. */
  datatype SupplyKind = Health | WeaponCrate(weapon: Weapon) | ScoreCrate(points: int)

  datatype Player = Player(x: real, y: real, width: real, height: real)
  datatype Bullet = Bullet(id: int, x: real, y: real, width: real, height: real, speed: real, power: int)
  datatype Enemy = Enemy(id: int, x: real, y: real, width: real, height: real, health: int, speed: real)
  datatype Supply = Supply(id: int, x: real, y: real, width: real, height: real, kind: SupplyKind)
  datatype Explosion = Explosion(id: int, x: real, y: real, size: real)

  const PlayerSize: real := 40.0
  const EnemySize: real := 30.0
  const SupplySize: real := 20.0

  function Max(a: int, b: int): int { if a < b then b else a }
  function Min(a: int, b: int): int { if a < b then a else b }
  function MaxR(a: real, b: real): real { if a < b then b else a }
  function MinR(a: real, b: real): real { if a < b then a else b }
  function Dist(a: real, b: real): real { if a < b then b - a else a - b }

  /** An axis-aligned rectangle given by its four edges. */
  datatype Rect = Rect(left: real, right: real, top: real, bottom: real)

  /** The box at `(x, y)` of size `w` by `h`, shrunk by `d` on every side. */
  function Inset(x: real, y: real, w: real, h: real, d: real): Rect
  {
    Rect(x + d, x + w - d, y + d, y + h - d)
  }

  function PlayerBox(p: Player): Rect { Inset(p.x, p.y, p.width, p.height, 5.0) }
  function EnemyBox(e: Enemy): Rect { Inset(e.x, e.y, e.width, e.height, 5.0) }
  function BulletBox(b: Bullet): Rect { Inset(b.x, b.y, b.width, b.height, 2.0) }
  function SupplyBox(s: Supply): Rect { Inset(s.x, s.y, s.width, s.height, 2.0) }

  /** The collision test of `checkCollisions`: all four strict edge inequalities. */
  predicate Overlaps(a: Rect, b: Rect)
  {
    a.left < b.right && a.right > b.left && a.top < b.bottom && a.bottom > b.top
  }

  /** A rectangle with positive width and height. */
  predicate Proper(r: Rect)
  {
    r.left < r.right && r.top < r.bottom
  }

  /** The point lies strictly inside the rectangle. */
  predicate Inside(x: real, y: real, r: Rect)
  {
    r.left < x < r.right && r.top < y < r.bottom
  }

  /** For boxes of positive size the edge test means exactly that the two boxes share an
      interior point: rectangles that only touch along an edge or a corner do not collide. */
  lemma OverlapsIffSharedPoint(a: Rect, b: Rect)
    requires Proper(a) && Proper(b)
    ensures Overlaps(a, b) <==> exists x: real, y: real :: Inside(x, y, a) && Inside(x, y, b)
  {
    if Overlaps(a, b) {
      var x := (MaxR(a.left, b.left) + MinR(a.right, b.right)) / 2.0;
      var y := (MaxR(a.top, b.top) + MinR(a.bottom, b.bottom)) / 2.0;
      assert Inside(x, y, a) && Inside(x, y, b);
    }
  }

  /** The test is symmetric, and boxes that merely touch do not overlap. */
  lemma OverlapsSymmetricAndStrict(a: Rect, b: Rect)
    ensures Overlaps(a, b) <==> Overlaps(b, a)
    ensures a.right == b.left || a.bottom == b.top ==> !Overlaps(a, b)
  {
  }
}

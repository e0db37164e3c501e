/** One frame of the game (`gameLoop`, components/game-play.tsx:585-737) over the whole game
    state, first as a function on a `World` value and then as the `Game` object whose fields the
    frame updates in place. Every `Math.random()` draw, the clock reading `Date.now()` and the touch
    state are parameters of the frame. */
module GamePlay {
  import opened Seqs
  import opened Entities
  import opened Weapons
  import opened Spawner
  import opened Motion
  import opened Collisions
  import opened Progression

  /** The five draws a frame may consume, each in [0, 1). */
  datatype Draws = Draws(enemyX: real, supplyChance: real, supplyKind: real, weaponTier: real, supplyX: real)
  {
    predicate Valid()
    {
      IsDraw(enemyX) && IsDraw(supplyChance) && IsDraw(supplyKind) && IsDraw(weaponTier) && IsDraw(supplyX)
    }
  }

  /** What the outside world supplies to a frame: its duration in milliseconds, whether the screen
      is touched, the clock reading and the random draws. */
  datatype Frame = Frame(dt: nat, touching: bool, now: int, draws: Draws)

  /** What `onGameOver` reports: the score and tokens of the last rendered state. */
  datatype Tally = Tally(score: int, tokens: int)

  /** The whole state `gameLoop` and `checkCollisions` read and write. */
  datatype World = World(
    width: real, height: real,
    player: Player, weapon: Weapon,
    bullets: seq<Bullet>, enemies: seq<Enemy>, supplies: seq<Supply>, explosions: seq<Explosion>,
    score: int, progress: Progress,
    gameTime: nat, enemyClock: nat, supplyClock: nat, paused: bool)

  /** A frame's world and whether it ended the game. */
  datatype Outcome = Outcome(world: World, over: Option<Tally>)

  /** The state right after the container has been measured: the player centred 20 above the
      bottom edge, the basic gun, level 1, difficulty 1, nothing on the field. */
  function Start(width: real, height: real): (r: World)
    ensures r.width == width && r.height == height && r.weapon == Basic && r.score == 0 && r.progress == Initial
    ensures r.bullets == [] && r.enemies == [] && r.supplies == [] && r.explosions == [] && !r.paused
    ensures r.gameTime == 0 && r.enemyClock == 0 && r.supplyClock == 0
    ensures r.player.width == PlayerSize && r.player.x + r.player.width / 2.0 == width / 2.0
    ensures r.player.y + r.player.height + 20.0 == height
    ensures width >= PlayerSize ==> PlayerInField(r)
  {
    World(width, height, Player(width / 2.0 - PlayerSize / 2.0, height - PlayerSize - 20.0, PlayerSize, PlayerSize),
          Basic, [], [], [], [], 0, Initial, 0, 0, 0, false)
  }

  /** Every score crate on the field is worth a non-negative amount. */
  predicate SoundCrates(ss: seq<Supply>)
  {
    forall k :: 0 <= k < |ss| ==> (ss[k].kind.ScoreCrate? ==> ss[k].kind.points >= 0)
  }

  /** What holds of every state the game reaches. */
  predicate Valid(w: World)
  {
    Sane(w.progress) && w.score >= 0 && Alive(w.enemies) && SoundCrates(w.supplies)
  }

  /** The player's box lies across the field's width. */
  predicate PlayerInField(w: World)
  {
    0.0 <= w.player.x <= w.width - w.player.width
  }

  /** Entities on the field: enemies and supplies above the bottom edge, bullets below the top. */
  predicate InField(w: World)
  {
    && (forall k :: 0 <= k < |w.enemies| ==> w.enemies[k].y < w.height)
    && (forall k :: 0 <= k < |w.supplies| ==> w.supplies[k].y < w.height)
    && (forall k :: 0 <= k < |w.bullets| ==> w.bullets[k].y + w.bullets[k].height > 0.0)
  }

  /** `fireBullet`: the weapon's shots appended after the bullets already flying. */
  function Fire(w: World, now: int): (r: World)
    ensures |r.bullets| == |w.bullets| + |Shots(w.weapon, w.player, now)|
    ensures r.bullets[..|w.bullets|] == w.bullets && r.bullets[|w.bullets|..] == Shots(w.weapon, w.player, now)
    ensures r.(bullets := w.bullets) == w
  {
    w.(bullets := w.bullets + Shots(w.weapon, w.player, now))
  }

  /** The enemy spawner: the frame is added to its clock; once the clock exceeds the interval it
      restarts from zero and one enemy is appended. */
  function SpawnEnemy(w: World, dt: nat, draw: real, now: int): (r: World)
    requires w.progress.difficulty > 0.0 && IsDraw(draw)
    ensures EnemyDue(w.enemyClock + dt, w.progress.level, w.progress.difficulty) ==>
      r == w.(enemyClock := 0, enemies := w.enemies + [NewEnemy(w.progress.level, draw, w.width, now)])
    ensures !EnemyDue(w.enemyClock + dt, w.progress.level, w.progress.difficulty) ==>
      r == w.(enemyClock := w.enemyClock + dt)
  {
    var clock := w.enemyClock + dt;
    if EnemyDue(clock, w.progress.level, w.progress.difficulty) then
      w.(enemyClock := 0, enemies := w.enemies + [NewEnemy(w.progress.level, draw, w.width, now)])
    else w.(enemyClock := clock)
  }

  /** The supply spawner: the frame is added to its clock; once the clock exceeds five seconds it
      restarts from zero and the crate the draws produce, if any, is appended. */
  function SpawnSupply(w: World, dt: nat, d: Draws, now: int): (r: World)
    requires IsDraw(d.supplyX)
    ensures !SupplyDue(w.supplyClock + dt) ==> r == w.(supplyClock := w.supplyClock + dt)
    ensures SupplyDue(w.supplyClock + dt) ==>
      r == w.(supplyClock := 0, supplies := w.supplies +
        match SupplyDrop(w.progress.level, d.supplyChance, d.supplyKind, d.weaponTier, d.supplyX, w.width, now)
        case None => []
        case Some(s) => [s])
  {
    var clock := w.supplyClock + dt;
    if !SupplyDue(clock) then w.(supplyClock := clock)
    else
      match SupplyDrop(w.progress.level, d.supplyChance, d.supplyKind, d.weaponTier, d.supplyX, w.width, now)
      case None => w.(supplyClock := 0)
      case Some(s) => w.(supplyClock := 0, supplies := w.supplies + [s])
  }

  /** Movement and culling of the three moving lists. */
  function Move(w: World): (r: World)
    ensures InField(r)
    ensures r.enemies == MoveEnemies(w.enemies, w.height) && r.supplies == MoveSupplies(w.supplies, w.height)
      && r.bullets == MoveBullets(w.bullets)
    ensures r.(enemies := w.enemies, supplies := w.supplies, bullets := w.bullets) == w
    ensures |r.enemies| <= |w.enemies| && |r.supplies| <= |w.supplies| && |r.bullets| <= |w.bullets|
  {
    w.(enemies := MoveEnemies(w.enemies, w.height), supplies := MoveSupplies(w.supplies, w.height),
       bullets := MoveBullets(w.bullets))
  }

  /** The bullet pass of `checkCollisions` applied to the world. */
  function Shot(w: World, now: int): World
  {
    Scored(w, BulletPass(w.bullets, w.enemies, now))
  }

  /** A bullet pass's outcome written to the world: its lists written back only after a hit, its
      explosions appended, five points per destroyed enemy. */
  function Scored(w: World, v: Volley): (r: World)
    ensures r.(bullets := w.bullets, enemies := w.enemies, explosions := w.explosions, score := w.score) == w
    ensures v.hit ==> r.bullets == v.bullets && r.enemies == v.enemies
    ensures !v.hit ==> r.bullets == w.bullets && r.enemies == w.enemies
    ensures |r.explosions| == |w.explosions| + |v.explosions|
    ensures r.explosions[..|w.explosions|] == w.explosions && r.explosions[|w.explosions|..] == v.explosions
    ensures r.score == w.score + 5 * v.kills && r.score >= w.score
  {
    w.(bullets := if v.hit then v.bullets else w.bullets,
       enemies := if v.hit then v.enemies else w.enemies,
       explosions := w.explosions + v.explosions,
       score := w.score + 5 * v.kills)
  }

  /** The supply pass of `checkCollisions` applied to the world: the score and the weapon as the
      pickups leave them, the list written back only after a pickup. */
  function Picked(w: World): (r: World)
    ensures r.(supplies := w.supplies, score := w.score, weapon := w.weapon) == w
    ensures r.supplies == Keep(w.supplies, Ungrabbed(w.player))
    ensures r.score == w.score + Bonus(w.player, w.supplies)
    ensures r.weapon == LastWeapon(w.player, w.supplies, w.weapon)
  {
    CollectQuiet(w.player, w.supplies, w.score, w.weapon);
    CollectKeepsTheRest(w.player, w.supplies, w.score, w.weapon);
    CollectScores(w.player, w.supplies, w.score, w.weapon);
    CollectEquipsLast(w.player, w.supplies, w.score, w.weapon);
    var h := Collect(w.player, w.supplies, w.score, w.weapon);
    w.(supplies := if h.collected then h.supplies else w.supplies, score := h.score, weapon := h.weapon)
  }

  /** `checkCollisions`: the bullet pass, then the crash test against the enemies that survived it,
      which ends the game before any supply is looked at, then the supply pass. */
  function Collide(w: World, now: int): (r: Outcome)
    ensures r.world.player == w.player && r.world.width == w.width && r.world.height == w.height
    ensures r.world.progress == w.progress && r.world.paused == w.paused
    ensures r.over.Some? <==> Struck(w.player, BulletPass(w.bullets, w.enemies, now).enemies)
    ensures r.over.Some? ==> r.over.value == Tally(w.score, w.progress.tokens)
  {
    var s := Shot(w, now);
    if Struck(w.player, BulletPass(w.bullets, w.enemies, now).enemies) then
      Outcome(s.(explosions := s.explosions + [Wreck(w.player, now)]), Some(Tally(w.score, w.progress.tokens)))
    else
      Outcome(Picked(s), None)
  }

  /** The score effect applied to the world. */
  function Progressed(w: World): World
  {
    w.(progress := Advance(w.progress, w.score))
  }

  /** The frame added to the game time. */
  function Clocked(w: World, dt: nat): (r: World)
    ensures r.gameTime - w.gameTime == dt && r.(gameTime := w.gameTime) == w
  {
    w.(gameTime := w.gameTime + dt)
  }

  /** The enemy spawner, then the supply spawner. */
  function Spawned(w: World, f: Frame): (r: World)
    requires w.progress.difficulty > 0.0 && f.draws.Valid()
    ensures r.(enemies := w.enemies, supplies := w.supplies, enemyClock := w.enemyClock, supplyClock := w.supplyClock) == w
    ensures |w.enemies| <= |r.enemies| <= |w.enemies| + 1 && |w.supplies| <= |r.supplies| <= |w.supplies| + 1
    ensures r.enemies[..|w.enemies|] == w.enemies && r.supplies[..|w.supplies|] == w.supplies
  {
    SpawnSupply(SpawnEnemy(w, f.dt, f.draws.enemyX, f.now), f.dt, f.draws, f.now)
  }

  /** The frame's fire test and, when it passes, `fireBullet`. */
  function Trigger(w: World, f: Frame): (r: World)
    ensures r.(bullets := w.bullets) == w
    ensures |r.bullets| > |w.bullets| <==> ShouldFire(f.touching, w.gameTime, f.dt, w.weapon)
    ensures |r.bullets| > |w.bullets| ==> r == Fire(w, f.now)
    ensures |r.bullets| <= |w.bullets| ==> r == w
  {
    if ShouldFire(f.touching, w.gameTime, f.dt, w.weapon) then Fire(w, f.now) else w
  }

  /** The frame's work once the game is known not to be paused, up to the collisions: game time,
      firing, the two spawners and the moves. */
  function Advanced(w: World, f: Frame): (r: World)
    requires w.progress.difficulty > 0.0 && f.draws.Valid()
    ensures InField(r)
    ensures r.gameTime == w.gameTime + f.dt
    ensures r.width == w.width && r.height == w.height && r.paused == w.paused
    ensures r.player == w.player && r.weapon == w.weapon && r.score == w.score && r.progress == w.progress
  {
    Move(Spawned(Trigger(Clocked(w, f.dt), f), f))
  }

  /** One frame: the banner countdown (even while paused), then, unless paused, the rest. */
  function Step(w: World, f: Frame): (r: Outcome)
    requires w.progress.difficulty > 0.0 && f.draws.Valid()
    ensures r.world.player == w.player && r.world.width == w.width && r.world.height == w.height
    ensures r.world.paused == w.paused
    ensures w.paused ==> r.over.None?
  {
    var w0 := w.(progress := Countdown(w.progress, f.dt));
    if w.paused then Outcome(w0, None) else Play(w0, f)
  }

  /** The unpaused part of a frame: game time, firing, spawning, movement, collisions, and the
      score effect when the game goes on. */
  function Play(w: World, f: Frame): (r: Outcome)
    requires w.progress.difficulty > 0.0 && f.draws.Valid()
    ensures r.world.player == w.player && r.world.width == w.width && r.world.height == w.height
    ensures r.world.paused == w.paused
    ensures r.over.Some? ==> r.over.value == Tally(w.score, w.progress.tokens)
    ensures r.over.None? ==> r.world.progress == Advance(w.progress, r.world.score)
  {
    var o := Collide(Advanced(w, f), f.now);
    if o.over.Some? then o else Outcome(Progressed(o.world), None)
  }

  /** The pointer effect: with a pointer, not paused and a measured field, the player is moved to
      the clamped centred position, but only when that is more than 2 away from where it is. */
  function Follow(w: World, pointer: Option<real>): (r: World)
    ensures r.(player := w.player) == w
    ensures r.player.width == w.player.width && r.player.y == w.player.y && r.player.height == w.player.height
    ensures r.player.x != w.player.x ==>
      pointer.Some? && !w.paused && w.width != 0.0 && r.player.x == ClampX(pointer.value, w.width, w.player.width)
      && Dist(r.player.x, w.player.x) > 2.0
    ensures (pointer.Some? && !w.paused && w.width != 0.0
             && Dist(ClampX(pointer.value, w.width, w.player.width), w.player.x) > 2.0) ==>
      r.player.x == ClampX(pointer.value, w.width, w.player.width)
  {
    if pointer.None? || w.paused || w.width == 0.0 then w
    else
      var x := ClampX(pointer.value, w.width, w.player.width);
      if Dist(x, w.player.x) > 2.0 then w.(player := w.player.(x := x)) else w
  }

  // ---------------------------------------------------------------------------------------------
  // Properties of a frame

  lemma StartIsValid(width: real, height: real)
    ensures Valid(Start(width, height)) && InField(Start(width, height))
  {
    InitialIsSane();
  }

  /** The player never leaves the field: following the pointer clamps it, and a frame does not
      move it. */
  lemma PlayerStaysInField(w: World, f: Frame, pointer: Option<real>)
    requires PlayerInField(w)
    ensures PlayerInField(Follow(w, pointer))
    ensures w.progress.difficulty > 0.0 && f.draws.Valid() ==> PlayerInField(Step(w, f).world)
  {
    if pointer.Some? && !w.paused && w.width != 0.0 {
      assert w.player.width <= w.width;
    }
  }

  /** Writing the pass's lists back only after a hit is the same as always writing them back: a
      pass without a hit leaves both lists as they were. */
  lemma ShotWritesPass(w: World, now: int)
    ensures var v := BulletPass(w.bullets, w.enemies, now);
      Shot(w, now) == w.(bullets := v.bullets, enemies := v.enemies,
                         explosions := w.explosions + v.explosions, score := w.score + 5 * v.kills)
  {
    BulletPassQuiet(w.bullets, w.enemies, now);
  }

  lemma MoveKeepsValid(w: World)
    requires Valid(w)
    ensures Valid(Move(w))
  {
    var es := MoveEnemies(w.enemies, w.height);
    MoveEnemiesSurvivors(w.enemies, w.height);
    forall k | 0 <= k < |es|
      ensures es[k].health >= 1
    {
      var i :| 0 <= i < |w.enemies| && Fallen(w.enemies)[i] == es[k];
    }
    var ss := MoveSupplies(w.supplies, w.height);
    MoveSuppliesSurvivors(w.supplies, w.height);
    forall k | 0 <= k < |ss| && ss[k].kind.ScoreCrate?
      ensures ss[k].kind.points >= 0
    {
      var i :| 0 <= i < |w.supplies| && Drifted(w.supplies)[i] == ss[k];
    }
  }

  lemma TriggerKeepsValid(w: World, f: Frame)
    requires Valid(w)
    ensures Valid(Trigger(w, f))
  {
  }

  lemma SpawnsKeepValid(w: World, f: Frame)
    requires Valid(w) && f.draws.Valid()
    ensures Valid(Spawned(w, f))
  {
    var w3 := SpawnEnemy(w, f.dt, f.draws.enemyX, f.now);
    assert Valid(w3);
  }

  /** Everything a frame does before the collisions keeps the state valid. */
  lemma AdvancedKeepsValid(w: World, f: Frame)
    requires Valid(w) && f.draws.Valid()
    ensures Valid(Advanced(w, f))
  {
    var w1 := Clocked(w, f.dt);
    TriggerKeepsValid(w1, f);
    var w2 := Trigger(w1, f);
    SpawnsKeepValid(w2, f);
    MoveKeepsValid(Spawned(w2, f));
  }

  lemma ShotKeepsValid(w: World, now: int)
    requires Valid(w)
    ensures Valid(Shot(w, now)) && Shot(w, now).score >= w.score
  {
    BulletPassKeepsAlive(w.bullets, w.enemies, now);
  }

  lemma CollectKeepsSound(p: Player, ss: seq<Supply>, score: int, weapon: Weapon)
    requires SoundCrates(ss)
    ensures SoundCrates(Collect(p, ss, score, weapon).supplies)
    ensures Collect(p, ss, score, weapon).score >= score
  {
    CollectKeepsTheRest(p, ss, score, weapon);
    CollectScores(p, ss, score, weapon);
    BonusNonNegative(p, ss);
    var kept := Keep(ss, Ungrabbed(p));
    KeepMembers(ss, Ungrabbed(p));
    forall k | 0 <= k < |kept| && kept[k].kind.ScoreCrate?
      ensures kept[k].kind.points >= 0
    {
      var i :| 0 <= i < |ss| && ss[i] == kept[k];
    }
  }

  lemma CollideKeepsValid(w: World, now: int)
    requires Valid(w)
    ensures Valid(Collide(w, now).world)
    ensures Collide(w, now).world.score >= w.score
  {
    ShotKeepsValid(w, now);
    var s := Shot(w, now);
    CollectKeepsSound(w.player, w.supplies, s.score, w.weapon);
  }

  /** Every reachable state stays valid: the progression sane, the score non-negative, every enemy
      on the field alive, every score crate worth a non-negative amount. The score, the level and
      the tokens never drop. */
  lemma StepKeepsValid(w: World, f: Frame)
    requires Valid(w) && f.draws.Valid()
    ensures Valid(Step(w, f).world)
    ensures var r := Step(w, f).world;
      r.score >= w.score && r.progress.level >= w.progress.level && r.progress.tokens >= w.progress.tokens
  {
    CountdownKeepsSane(w.progress, f.dt);
    if !w.paused {
      PlayKeepsValid(w.(progress := Countdown(w.progress, f.dt)), f);
    }
  }

  lemma PlayKeepsValid(w: World, f: Frame)
    requires Valid(w) && f.draws.Valid()
    ensures Valid(Play(w, f).world)
    ensures var r := Play(w, f).world;
      r.score >= w.score && r.progress.level >= w.progress.level && r.progress.tokens >= w.progress.tokens
  {
    AdvancedKeepsValid(w, f);
    AdvancedKeepsTally(w, f);
    var a := Advanced(w, f);
    CollideKeepsValid(a, f.now);
    var o := Collide(a, f.now);
    if o.over.None? {
      AdvanceKeepsSane(o.world.progress, o.world.score);
    }
  }

  /** The bullet pass keeps every surviving bullet and enemy where it was. */
  lemma BulletPassInField(bs: seq<Bullet>, es: seq<Enemy>, now: int, height: real)
    requires forall i :: 0 <= i < |es| ==> es[i].y < height
    requires forall i :: 0 <= i < |bs| ==> bs[i].y + bs[i].height > 0.0
    ensures forall e <- BulletPass(bs, es, now).enemies :: e.y < height
    ensures forall b <- BulletPass(bs, es, now).bullets :: b.y + b.height > 0.0
  {
    var v := BulletPass(bs, es, now);
    BulletPassKeepsBulletOrder(bs, es, now);
    SubseqMembers(v.bullets, bs);
    BulletPassKeepsEnemyOrder(bs, es, now);
    SubseqMembers(Bodies(v.enemies), Bodies(es));
    forall k | 0 <= k < |v.enemies|
      ensures v.enemies[k].y < height
    {
      assert Bodies(v.enemies)[k] in Bodies(es);
      var i :| 0 <= i < |es| && Bodies(es)[i] == Bodies(v.enemies)[k];
    }
  }

  lemma ShotInField(w: World, now: int)
    requires InField(w)
    ensures InField(Shot(w, now))
  {
    var v := BulletPass(w.bullets, w.enemies, now);
    BulletPassInField(w.bullets, w.enemies, now, w.height);
    var s := Shot(w, now);
    assert s.height == w.height && s.supplies == w.supplies;
    if v.hit {
      assert s.bullets == v.bullets && s.enemies == v.enemies;
    } else {
      assert s.bullets == w.bullets && s.enemies == w.enemies;
    }
  }

  /** Collisions only remove entities and wound enemies, so they keep everything inside the field. */
  lemma CollideInField(w: World, now: int)
    requires InField(w)
    ensures InField(Collide(w, now).world)
  {
    ShotInField(w, now);
    var s := Shot(w, now);
    if Collide(w, now).over.None? {
      var p := Picked(s);
      KeepMembers(s.supplies, Ungrabbed(s.player));
      forall k | 0 <= k < |p.supplies|
        ensures p.supplies[k].y < s.height
      {
        var i :| 0 <= i < |s.supplies| && s.supplies[i] == p.supplies[k];
      }
      assert InField(p);
    }
  }

  /** After any frame that is not paused, no enemy or supply is at or below the bottom edge and
      no bullet is entirely above the top edge. */
  lemma StepInField(w: World, f: Frame)
    requires w.progress.difficulty > 0.0 && f.draws.Valid() && !w.paused
    ensures InField(Step(w, f).world)
  {
    var a := Advanced(w.(progress := Countdown(w.progress, f.dt)), f);
    CollideInField(a, f.now);
    var o := Collide(a, f.now);
    assert Step(w, f).world == if o.over.Some? then o.world else Progressed(o.world);
  }

  /** A paused frame changes nothing but the banner countdown. */
  lemma PausedFrameFreezes(w: World, f: Frame)
    requires w.progress.difficulty > 0.0 && f.draws.Valid() && w.paused
    ensures Step(w, f).over.None?
    ensures Step(w, f).world.(progress := w.progress) == w
    ensures Step(w, f).world.progress == Countdown(w.progress, f.dt)
  {
  }

  /** The frames before the collisions leave the score, the weapon, the player and the tokens as
      they were. */
  lemma AdvancedKeepsTally(w: World, f: Frame)
    requires w.progress.difficulty > 0.0 && f.draws.Valid()
    ensures var a := Advanced(w, f);
      && a.score == w.score && a.progress == w.progress && a.player == w.player && a.weapon == w.weapon
      && a.gameTime == w.gameTime + f.dt
  {
  }

  /** The game ends only in a frame that is not paused, and reports the score and tokens the frame
      started with; it ends exactly when an enemy that survived the bullets overlaps the player. */
  lemma GameOverReportsFrameStart(w: World, f: Frame)
    requires w.progress.difficulty > 0.0 && f.draws.Valid()
    ensures Step(w, f).over.Some? ==> !w.paused && Step(w, f).over.value == Tally(w.score, w.progress.tokens)
    ensures !w.paused ==>
      var a := Advanced(w.(progress := Countdown(w.progress, f.dt)), f);
      (Step(w, f).over.Some? <==> Struck(a.player, BulletPass(a.bullets, a.enemies, f.now).enemies))
  {
    if !w.paused {
      AdvancedKeepsTally(w.(progress := Countdown(w.progress, f.dt)), f);
    }
  }

  /** A frame that ends the game leaves the supplies and the weapon alone. */
  lemma GameOverSkipsSupplies(w: World, now: int)
    ensures Collide(w, now).over.Some? ==>
      Collide(w, now).world.supplies == w.supplies && Collide(w, now).world.weapon == w.weapon
  {
  }

  /** A frame that goes on scores five points per destroyed enemy plus the points of every score
      crate picked up; the weapon becomes that of the last weapon crate picked up. */
  lemma CollideScores(w: World, now: int)
    ensures Collide(w, now).over.None? ==>
      var v := BulletPass(w.bullets, w.enemies, now);
      && Collide(w, now).world.score == w.score + 5 * v.kills + Bonus(w.player, w.supplies)
      && Collide(w, now).world.weapon == LastWeapon(w.player, w.supplies, w.weapon)
  {
    var s := Shot(w, now);
    CollectScores(w.player, w.supplies, s.score, w.weapon);
    CollectEquipsLast(w.player, w.supplies, s.score, w.weapon);
  }

  /** Once level and tokens match the score, every frame that goes on keeps them matching it. */
  lemma StepKeepsSettled(w: World, f: Frame)
    requires Valid(w) && f.draws.Valid() && Settled(w.progress, w.score)
    ensures Step(w, f).over.None? ==> Settled(Step(w, f).world.progress, Step(w, f).world.score)
  {
    StepKeepsValid(w, f);
    if !w.paused && Step(w, f).over.None? {
      var a := Advanced(w.(progress := Countdown(w.progress, f.dt)), f);
      AdvancedKeepsTally(w.(progress := Countdown(w.progress, f.dt)), f);
      var o := Collide(a, f.now);
      AdvanceTracksScore(o.world.progress, w.score, o.world.score);
    }
  }

  // ---------------------------------------------------------------------------------------------
  // The game object

  /** The state of `GamePlay`: the container's size, the player, the equipped weapon, the four
      entity lists, score, progression, the banner, the game-time and spawn accumulators, and the
      pause flag. */
  class Game {
    const width: real
    const height: real
    var player: Player
    var weapon: Weapon
    var bullets: seq<Bullet>
    var enemies: seq<Enemy>
    var supplies: seq<Supply>
    var explosions: seq<Explosion>
    var score: int
    var level: int
    var tokens: int
    var difficulty: real
    var showLevelUp: bool
    var levelUpClock: int
    var gameTime: nat
    var enemyClock: nat
    var supplyClock: nat
    var paused: bool

    /** The fields as one world value. */
    function Snapshot(): World
      reads this
    {
      World(width, height, player, weapon, bullets, enemies, supplies, explosions, score,
            Progress(level, tokens, difficulty, showLevelUp, levelUpClock), gameTime, enemyClock, supplyClock, paused)
    }

    /** What holds of every state the game object reaches. */
    predicate Consistent()
      reads this
    {
      Valid(Snapshot())
    }

    constructor(width: real, height: real)
      ensures Snapshot() == Start(width, height)
      ensures Consistent()
    {
      this.width := width;
      this.height := height;
      player := Player(width / 2.0 - PlayerSize / 2.0, height - PlayerSize - 20.0, PlayerSize, PlayerSize);
      weapon := Basic;
      bullets, enemies, supplies, explosions := [], [], [], [];
      score := 0;
      level, tokens, difficulty, showLevelUp, levelUpClock := 1, 0, 1.0, false, 0;
      gameTime, enemyClock, supplyClock := 0, 0, 0;
      paused := false;
      StartIsValid(width, height);
    }

    /** The pause button. */
    method TogglePause()
      requires Consistent()
      modifies this
      ensures Snapshot() == old(Snapshot()).(paused := !old(paused))
      ensures Consistent()
    {
      paused := !paused;
    }

    /** The pointer effect. */
    method FollowPointer(pointer: Option<real>)
      requires Consistent()
      modifies this
      ensures Snapshot() == Follow(old(Snapshot()), pointer)
      ensures Consistent()
    {
      if pointer.None? || paused || width == 0.0 {
        return;
      }
      var x := ClampX(pointer.value, width, player.width);
      if Dist(x, player.x) > 2.0 {
        player := player.(x := x);
      }
    }

    /** The banner countdown. */
    method CountDownBanner(dt: nat)
      modifies this
      ensures Snapshot() == old(Snapshot()).(progress := Countdown(old(Snapshot()).progress, dt))
    {
      if showLevelUp {
        levelUpClock := levelUpClock + dt;
        if levelUpClock > 2000 {
          showLevelUp := false;
        }
      }
    }

    /** `fireBullet`. */
    method FireBullet(now: int)
      modifies this
      ensures Snapshot() == Fire(old(Snapshot()), now)
    {
      bullets := bullets + Shots(weapon, player, now);
    }

    /** The enemy spawner. */
    method SpawnEnemies(dt: nat, draw: real, now: int)
      requires difficulty > 0.0 && IsDraw(draw)
      modifies this
      ensures Snapshot() == SpawnEnemy(old(Snapshot()), dt, draw, now)
    {
      enemyClock := enemyClock + dt;
      if EnemyDue(enemyClock, level, difficulty) {
        enemyClock := 0;
        enemies := enemies + [NewEnemy(level, draw, width, now)];
      }
    }

    /** The supply spawner. */
    method SpawnSupplies(dt: nat, d: Draws, now: int)
      requires IsDraw(d.supplyX)
      modifies this
      ensures Snapshot() == SpawnSupply(old(Snapshot()), dt, d, now)
    {
      supplyClock := supplyClock + dt;
      if SupplyDue(supplyClock) {
        supplyClock := 0;
        var drop := SupplyDrop(level, d.supplyChance, d.supplyKind, d.weaponTier, d.supplyX, width, now);
        if drop.Some? {
          supplies := supplies + [drop.value];
        }
      }
    }

    /** Movement and culling. */
    method MoveAll()
      modifies this
      ensures Snapshot() == Move(old(Snapshot()))
    {
      ghost var before := Snapshot();
      enemies, supplies, bullets := MoveEnemies(enemies, height), MoveSupplies(supplies, height), MoveBullets(bullets);
      assert Snapshot() == before.(enemies := enemies, supplies := supplies, bullets := bullets);
    }

    /** `checkCollisions`' bullet pass, on working copies of the two lists. */
    method ShootEnemies(now: int) returns (v: Volley)
      modifies this
      ensures v == BulletPass(old(bullets), old(enemies), now)
      ensures Snapshot() == Shot(old(Snapshot()), now)
    {
      v := ResolveBullets(bullets, enemies, now);
      if v.hit {
        bullets, enemies := v.bullets, v.enemies;
      }
      explosions, score := explosions + v.explosions, score + 5 * v.kills;
      assert Snapshot() == Scored(old(Snapshot()), v);
    }

    /** `checkCollisions`' supply pass. */
    method PickUpSupplies()
      modifies this
      ensures Snapshot() == Picked(old(Snapshot()))
    {
      var h := CollectSupplies(player, supplies, score, weapon);
      score := h.score;
      weapon := h.weapon;
      if h.collected {
        supplies := h.supplies;
      }
    }

    /** `checkCollisions`, returning the tally it reports when the player is hit. */
    method CheckCollisions(now: int) returns (over: Option<Tally>)
      modifies this
      ensures Outcome(Snapshot(), over) == Collide(old(Snapshot()), now)
    {
      var tally := Tally(score, tokens);
      var v := ShootEnemies(now);
      var crashed := FindCrash(player, v.enemies);
      if crashed {
        explosions := explosions + [Wreck(player, now)];
        return Some(tally);
      }
      PickUpSupplies();
      over := None;
    }

    /** The score effect. */
    method UpdateProgression()
      modifies this
      ensures Snapshot() == Progressed(old(Snapshot()))
    {
      ghost var before := Snapshot().progress;
      var newLevel := LevelFor(score);
      if newLevel > level {
        level, showLevelUp, levelUpClock, difficulty := newLevel, true, 0, difficulty + 0.5;
      }
      var newTokens := TokensFor(score);
      if newTokens > tokens {
        tokens := newTokens;
      }
      assert Snapshot().progress == Advance(before, score);
    }

    /** The unpaused part of a frame up to the collisions: game time, firing, spawning, moves. */
    method PlayFrame(f: Frame)
      requires difficulty > 0.0 && f.draws.Valid()
      modifies this
      ensures Snapshot() == Advanced(old(Snapshot()), f)
    {
      gameTime := gameTime + f.dt;
      ghost var clocked := Snapshot();
      assert clocked == Clocked(old(Snapshot()), f.dt);
      if ShouldFire(f.touching, gameTime, f.dt, weapon) {
        FireBullet(f.now);
      }
      ghost var triggered := Snapshot();
      assert triggered == Trigger(clocked, f);
      SpawnEnemies(f.dt, f.draws.enemyX, f.now);
      SpawnSupplies(f.dt, f.draws, f.now);
      assert Snapshot() == Spawned(triggered, f);
      MoveAll();
    }

    /** One frame of `gameLoop`, followed by the score effect when the game goes on. */
    method Tick(f: Frame) returns (over: Option<Tally>)
      requires Consistent() && f.draws.Valid()
      modifies this
      ensures Outcome(Snapshot(), over) == Step(old(Snapshot()), f)
      ensures Consistent()
    {
      StepKeepsValid(Snapshot(), f);
      CountDownBanner(f.dt);
      if paused {
        return None;
      }
      PlayFrame(f);
      over := CheckCollisions(f.now);
      if over.None? {
        UpdateProgression();
      }
    }
  }
}

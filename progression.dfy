/** Levels, tokens and difficulty (the score effect of components/game-play.tsx:194-237) and the
    level-up banner's two-second countdown (lines 595-601). */
module Progression {
  import opened Seqs

  /** The level a score reaches: one more than its completed thousands. */
  function LevelFor(score: int): (r: int)
    ensures (r - 1) * 1000 <= score < r * 1000
    ensures score >= 0 ==> r >= 1
  {
    score / 1000 + 1
  }

  /** The tokens a score earns: one per completed thousand. */
  function TokensFor(score: int): (r: int)
    ensures r * 1000 <= score < (r + 1) * 1000
    ensures r == LevelFor(score) - 1
  {
    score / 1000
  }

  /** Level and tokens never go down as the score goes up. */
  lemma ThousandsMonotone(s: int, t: int)
    requires s <= t
    ensures LevelFor(s) <= LevelFor(t) && TokensFor(s) <= TokensFor(t)
  {
  }

  /** The progression state of a game: level, tokens, difficulty multiplier and the level-up
      banner with the milliseconds it has been shown. */
  datatype Progress = Progress(level: int, tokens: int, difficulty: real, showLevelUp: bool, levelUpClock: int)

  const Initial: Progress := Progress(1, 0, 1.0, false, 0)

  /** What a state of the progression can be: the difficulty grows by half a point per level-up,
      so it stays between 1 and half the level plus a half; a banner still shown has been up for
      at most two seconds. */
  predicate Sane(p: Progress)
  {
    && p.level >= 1 && p.tokens >= 0 && p.levelUpClock >= 0
    && (p.showLevelUp ==> p.levelUpClock <= 2000)
    && 1.0 <= p.difficulty <= 0.5 * (p.level as real) + 0.5
  }

  /** The score effect: a higher level than the current one is adopted, with the banner shown anew
      and the difficulty raised by a half; a higher token count is adopted. Neither ever drops. */
  function Advance(p: Progress, score: int): (q: Progress)
    ensures q.level == if LevelFor(score) > p.level then LevelFor(score) else p.level
    ensures q.tokens == if TokensFor(score) > p.tokens then TokensFor(score) else p.tokens
    ensures q.level > p.level ==> q.showLevelUp && q.levelUpClock == 0 && q.difficulty == p.difficulty + 0.5
    ensures q.level == p.level ==>
      q.showLevelUp == p.showLevelUp && q.levelUpClock == p.levelUpClock && q.difficulty == p.difficulty
  {
    var newLevel := LevelFor(score);
    var q := if newLevel > p.level
      then p.(level := newLevel, showLevelUp := true, levelUpClock := 0, difficulty := p.difficulty + 0.5)
      else p;
    var newTokens := TokensFor(score);
    if newTokens > q.tokens then q.(tokens := newTokens) else q
  }

  lemma InitialIsSane()
    ensures Sane(Initial)
  {
  }

  /** The score effect keeps the progression sane for any non-negative score. */
  lemma AdvanceKeepsSane(p: Progress, score: int)
    requires Sane(p) && score >= 0
    ensures Sane(Advance(p, score))
  {
  }

  /** The progression matches the score exactly. */
  predicate Settled(p: Progress, score: int)
  {
    p.level == LevelFor(score) && p.tokens == TokensFor(score)
  }

  /** Once level and tokens match the score, a score that only grows keeps them matching it. */
  lemma AdvanceTracksScore(p: Progress, s: int, t: int)
    requires Settled(p, s) && s <= t
    ensures Settled(Advance(p, t), t)
  {
    ThousandsMonotone(s, t);
  }

  /** Running the effect twice on the same score changes nothing more. */
  lemma AdvanceIdempotent(p: Progress, score: int)
    ensures Advance(Advance(p, score), score) == Advance(p, score)
  {
  }

  /** A jump over several levels at once still raises the difficulty by only a half, so a
      difficulty that was on track (one half per level above the first) falls behind. */
  lemma LevelJumpLagsDifficulty(p: Progress, score: int)
    requires p.difficulty == 0.5 * (p.level as real) + 0.5 && LevelFor(score) >= p.level + 2
    ensures Advance(p, score).difficulty == p.difficulty + 0.5
    ensures Advance(p, score).difficulty < 0.5 * (Advance(p, score).level as real) + 0.5
  {
    var q := Advance(p, score);
    assert q.level == LevelFor(score);
    assert (q.level as real) >= (p.level as real) + 2.0;
  }

  /** One frame of the banner: while shown, its clock advances by the frame and it hides once the
      clock has passed two seconds; progression itself is untouched. */
  function Countdown(p: Progress, dt: nat): (q: Progress)
    ensures q.level == p.level && q.tokens == p.tokens && q.difficulty == p.difficulty
    ensures q.showLevelUp <==> p.showLevelUp && p.levelUpClock + dt <= 2000
    ensures !p.showLevelUp ==> q == p
  {
    if p.showLevelUp then
      var clock := p.levelUpClock + dt;
      p.(levelUpClock := clock, showLevelUp := !(clock > 2000))
    else p
  }

  /** The banner countdown keeps the progression sane. */
  lemma CountdownKeepsSane(p: Progress, dt: nat)
    requires Sane(p)
    ensures Sane(Countdown(p, dt))
  {
  }

  /** The banner over a run of frames. */
  function Countdowns(p: Progress, dts: seq<nat>): Progress
    decreases |dts|
  {
    if dts == [] then p else Countdowns(Countdown(p, dts[0]), dts[1..])
  }

  /** A banner shown at clock `c` is still shown after frames of total length `d` exactly when
      `c + d` is at most two seconds. */
  lemma {:induction false} BannerLastsTwoSeconds(p: Progress, dts: seq<nat>)
    requires p.showLevelUp && p.levelUpClock <= 2000
    ensures Countdowns(p, dts).showLevelUp <==> p.levelUpClock + Sum(dts) <= 2000
    decreases |dts|
  {
    if dts != [] {
      var q := Countdown(p, dts[0]);
      if q.showLevelUp {
        BannerLastsTwoSeconds(q, dts[1..]);
      } else {
        HiddenStaysHidden(q, dts[1..]);
      }
    }
  }

  lemma {:induction false} HiddenStaysHidden(p: Progress, dts: seq<nat>)
    requires !p.showLevelUp
    ensures Countdowns(p, dts) == p
    decreases |dts|
  {
    if dts != [] {
      HiddenStaysHidden(Countdown(p, dts[0]), dts[1..]);
    }
  }
}

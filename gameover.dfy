/** The game-over screen (components/game-over.tsx): the level reached, derived again from the
    final score, and the closing message chosen by that level. */
module GameOverScreen {
  import opened Progression
  import opened GamePlay

  /** The four closing messages, from the shortest run to the longest. */
  const Messages: seq<string> := [
    "Apenas comenzaste tu escape...",
    "Un buen intento, pero la horda es implacable.",
    "¡Impresionante! Casi logras escapar.",
    "¡Increíble! Eres un verdadero superviviente."
  ]

  /** `getMessage`: the first band whose upper level bound the level does not exceed. */
  function GetMessage(level: int): (m: string)
    ensures m in Messages
    ensures m == Messages[0] <==> level <= 1
    ensures m == Messages[1] <==> 2 <= level <= 3
    ensures m == Messages[2] <==> 4 <= level <= 5
    ensures m == Messages[3] <==> level >= 6
  {
    if level <= 1 then Messages[0]
    else if level <= 3 then Messages[1]
    else if level <= 5 then Messages[2]
    else Messages[3]
  }

  /** The level and message shown for a final score. */
  datatype Summary = Summary(score: int, tokens: int, level: int, message: string)

  function Summarize(score: int, tokens: int): (r: Summary)
    ensures r.score == score && r.tokens == tokens
    ensures score >= 0 ==> r.level >= 1
    ensures (r.level - 1) * 1000 <= score < r.level * 1000
    ensures r.message in Messages && r.message == GetMessage(r.level)
  {
    var level := LevelFor(score);
    Summary(score, tokens, level, GetMessage(level))
  }

  /** The message by score: under 1000 points the first, under 3000 the second, under 5000 the
      third, and from 5000 on the fourth. */
  lemma MessageByScore(score: int, tokens: int)
    requires score >= 0
    ensures var m := Summarize(score, tokens).message;
      && (m == Messages[0] <==> score < 1000)
      && (m == Messages[1] <==> 1000 <= score < 3000)
      && (m == Messages[2] <==> 3000 <= score < 5000)
      && (m == Messages[3] <==> score >= 5000)
  {
    var level := LevelFor(score);
    assert (level - 1) * 1000 <= score < level * 1000;
    if level <= 1 {
      assert score < 1000;
    } else if level <= 3 {
      assert 1000 <= score < 3000;
    } else if level <= 5 {
      assert 3000 <= score < 5000;
    } else {
      assert score >= 5000;
    }
  }

  /** The four messages differ, so every level selects exactly one of them. */
  lemma ExactlyOneMessage(level: int)
    ensures exists i :: 0 <= i < |Messages| && GetMessage(level) == Messages[i]
    ensures forall i, j :: 0 <= i < j < |Messages| ==> Messages[i] != Messages[j]
  {
    assert |Messages[0]| != |Messages[1]| && |Messages[0]| != |Messages[2]| && |Messages[0]| != |Messages[3]|;
    assert |Messages[1]| != |Messages[2]| && |Messages[1]| != |Messages[3]| && |Messages[2]| != |Messages[3]|;
  }

  /** A game whose level and tokens match its score ends on a screen that shows the level it had
      reached, and one token fewer than that level. */
  lemma GameOverShowsReachedLevel(w: World, f: Frame)
    requires Valid(w) && f.draws.Valid() && Settled(w.progress, w.score)
    ensures Step(w, f).over.Some? ==>
      var t := Step(w, f).over.value;
      && Summarize(t.score, t.tokens).level == w.progress.level >= 1
      && t.tokens == w.progress.level - 1
  {
    GameOverReportsFrameStart(w, f);
  }
}

/** The session around a game (components/game-container.tsx): which screen is shown, and the
    score and tokens of the game that ended last. */
module GameContainer {
  datatype GameState = Start | Playing | GameOver

  /** A screen the container can render; the game-over screen gets the stored score and tokens. */
  datatype Screen = StartScreen | PlayScreen | GameOverScreen(score: int, tokens: int)

  /** The three conditional screens of the container, in render order. */
  function Screens(state: GameState, score: int, tokens: int): (r: seq<Screen>)
    ensures |r| == 1
    ensures r[0].StartScreen? <==> state == Start
    ensures r[0].PlayScreen? <==> state == Playing
    ensures r[0].GameOverScreen? <==> state == GameOver
    ensures r[0].GameOverScreen? ==> r[0] == GameOverScreen(score, tokens)
  {
    (if state == Start then [StartScreen] else [])
    + (if state == Playing then [PlayScreen] else [])
    + (if state == GameOver then [GameOverScreen(score, tokens)] else [])
  }

  class Session {
    var state: GameState
    var score: int
    var tokens: int

    /** A fresh session: the start screen, nothing scored. */
    constructor()
      ensures state == Start && score == 0 && tokens == 0
      ensures Render() == [StartScreen]
    {
      state, score, tokens := Start, 0, 0;
    }

    /** `startGame`: playing, with score and tokens cleared. */
    method StartGame()
      modifies this
      ensures state == Playing && score == 0 && tokens == 0
      ensures Render() == [PlayScreen]
    {
      state := Playing;
      score := 0;
      tokens := 0;
    }

    /** `endGame`: the final tally stored, then the game-over screen. */
    method EndGame(finalScore: int, finalTokens: int)
      modifies this
      ensures state == GameOver && score == finalScore && tokens == finalTokens
      ensures Render() == [GameOverScreen(finalScore, finalTokens)]
    {
      score := finalScore;
      tokens := finalTokens;
      state := GameOver;
    }

    /** `restartGame`: back to the start screen; the stored tally stays until the next game
        starts. */
    method RestartGame()
      modifies this
      ensures state == Start && score == old(score) && tokens == old(tokens)
      ensures Render() == [StartScreen]
    {
      state := Start;
    }

    /** What the container renders now. */
    function Render(): seq<Screen>
      reads this
    {
      Screens(state, score, tokens)
    }
  }
}

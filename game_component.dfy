/** The game component's glue between the touch controls and the engine: a heading from the
    on-screen buttons or a swipe is turned into the key that the keyboard handler understands. */
module GameComponent {
  import opened Wrappers
  import opened GameConstants
  import opened Engine

  /** The arrow key standing for a heading. */
  function KeyForDirection(d: Direction): (k: string)
    ensures BufferedDirection(k) == Some(d) && k != "p"
  {
    match d
    case Up => "ArrowUp"
    case Down => "ArrowDown"
    case Left => "ArrowLeft"
    case Right => "ArrowRight"
  }

  /** The key of every heading is a movement key for exactly that heading and never the pause
      key, so distinct headings give distinct keys. */
  lemma KeyForDirectionBuffers(d: Direction)
    ensures BufferedDirection(KeyForDirection(d)) == Some(d)
    ensures KeyForDirection(d) != "p"
    ensures forall e: Direction :: KeyForDirection(e) == KeyForDirection(d) ==> e == d
  {
    forall e: Direction | KeyForDirection(e) == KeyForDirection(d)
      ensures e == d
    {
      assert BufferedDirection(KeyForDirection(e)) == Some(e);
    }
  }

  /** The touch controls' callback: while playing it buffers exactly the heading it was given;
      in any other state nothing changes. */
  method OnDirectionChange(engine: GameEngine, d: Direction)
    modifies engine`gameState, engine`nextDirection
    ensures engine.gameState == old(engine.gameState)
    ensures old(engine.gameState) == Playing ==> engine.nextDirection == Some(d)
    ensures old(engine.gameState) != Playing ==> engine.nextDirection == old(engine.nextDirection)
  {
    KeyForDirectionBuffers(d);
    engine.HandleKeyDown(KeyForDirection(d));
  }
}

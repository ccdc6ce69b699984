/** The game controller of libs/gameLogic.ts: its module-level variables as
    the fields of one session object, each event handler as a method that
    updates them in place. Every method is proved to move the session exactly
    as the matching function of GameSpec moves its value. */
module GameLogic {
  import opened GameSpec

  class Session {
    var score: int
    var gameState: GamePhase
    var boxState: BoxPhase
    var currentKeyCode: string
    var mainMenuShown: bool
    var endGameShown: bool
    var winShown: bool
    var loseShown: bool
    var scoreText: Option<int>
    var bodies: seq<Body>
    var droppedBoxes: seq<nat>

    /** The session as a value. */
    ghost function Snapshot(): State
      reads this
    {
      State(score, gameState, boxState, currentKeyCode,
            mainMenuShown, endGameShown, winShown, loseShown,
            scoreText, bodies, droppedBoxes)
    }

    ghost predicate Valid()
      reads this
    {
      WellFormed(Snapshot())
    }

    /** Page load: the initial variables and the static scene in the world.
        The panels start as the page's markup sets them. */
    constructor (menuVisible: bool, endGameVisible: bool, winVisible: bool, loseVisible: bool)
      ensures Valid()
      ensures Snapshot() == Initial(menuVisible, endGameVisible, winVisible, loseVisible)
    {
      score := StartScore;
      gameState := MainMenu;
      boxState := Idle;
      currentKeyCode := "";
      mainMenuShown := menuVisible;
      endGameShown := endGameVisible;
      winShown := winVisible;
      loseShown := loseVisible;
      scoreText := None;
      bodies := SceneBodies();
      droppedBoxes := [];
    }

    /** gameEnd: show the menu and the result, back to the main menu. */
    method GameEnd()
      modifies this
      ensures Snapshot() == EndRound(old(Snapshot()))
    {
      mainMenuShown := true;
      endGameShown := true;
      if score > 0 {
        winShown := true;
        loseShown := false;
      } else {
        winShown := false;
        loseShown := true;
      }
      gameState := MainMenu;
    }

    /** The body of the 100 ms refresh interval. */
    method RefreshTick()
      modifies this
      ensures Snapshot() == Tick(old(Snapshot()))
    {
      scoreText := Some(score);
      if score <= 0 && gameState == Game {
        score := 0;
        GameEnd();
      }
    }

    /** The collision-start handler, over the event's pairs in order. */
    method OnCollision(pairs: seq<Pair>)
      requires PairsIn(|bodies|, pairs)
      modifies this
      ensures Snapshot() == CollideAll(old(Snapshot()), pairs)
    {
      var i := 0;
      while i < |pairs|
        invariant 0 <= i <= |pairs|
        invariant |bodies| == old(|bodies|)
        invariant CollideAll(Snapshot(), pairs[i..]) == CollideAll(old(Snapshot()), pairs)
      {
        assert pairs[i..][1..] == pairs[i + 1..];
        HandlePair(pairs[i]);
        i := i + 1;
      }
    }

    /** One iteration of the collision-start loop. */
    method HandlePair(pair: Pair)
      requires InRange(|bodies|, pair)
      modifies this
      ensures Snapshot() == CollidePair(old(Snapshot()), pair)
    {
      if bodies[pair.bodyA].tag == Box || bodies[pair.bodyB].tag == Box {
        if bodies[pair.bodyB].tag == Ground || bodies[pair.bodyA].tag == Ground {
          bodies := bodies[pair.bodyA := bodies[pair.bodyA].(tag := Ground)];
          bodies := bodies[pair.bodyB := bodies[pair.bodyB].(tag := Ground)];
          bodies := bodies[pair.bodyA := bodies[pair.bodyA].(category := SceneCategory)];
          bodies := bodies[pair.bodyB := bodies[pair.bodyB].(category := SceneCategory)];
          score := score - Penalty;
          boxState := Idle;
          assert Snapshot() == Land(old(Snapshot()), pair);
        }
      }
      if bodies[pair.bodyA].tag == Ground || bodies[pair.bodyB].tag == Ground {
        if bodies[pair.bodyA].tag == FinishLine || bodies[pair.bodyB].tag == FinishLine {
          GameEnd();
        }
      }
    }

    /** The keydown listener; (`pendulumX`, `pendulumY`) is where the engine
        has the pendulum box at that moment. */
    method OnKeyDown(code: string, pendulumX: int, pendulumY: int)
      requires Valid()
      modifies this
      ensures Valid()
      ensures Snapshot() == KeyDown(old(Snapshot()), code, pendulumX, pendulumY)
    {
      if code == SpaceKey && currentKeyCode != code {
        if gameState == MainMenu {
          score := StartScore;
          ClearBoxes();
          mainMenuShown := false;
          gameState := Game;
        } else if gameState == Game && boxState == Idle {
          currentKeyCode := code;
          var linePosX := pendulumX;
          var linePosY := pendulumY + BoxSize;
          var createdPrefab := CreateBoxPrefab(linePosX, linePosY, BoxSize, BoxSize);
          boxState := Moving;
        }
      }
    }

    /** The keyup listener. */
    method OnKeyUp()
      modifies this
      ensures Snapshot() == KeyUp(old(Snapshot()))
    {
      currentKeyCode := "";
    }

    /** createBoxPrefab: a new box in the world, appended to the dropped boxes;
        the result is the new body's index. */
    method CreateBoxPrefab(x: int, y: int, width: int, height: int) returns (prefab: nat)
      modifies this
      ensures Snapshot() == AddBox(old(Snapshot()), x, y, width, height)
      ensures prefab == old(|bodies|) && bodies[prefab] == NewBox(x, y, width, height)
    {
      prefab := |bodies|;
      bodies := bodies + [NewBox(x, y, width, height)];
      droppedBoxes := droppedBoxes + [prefab];
    }

    /** clearBoxes: every dropped box leaves the world; the list is kept. */
    method ClearBoxes()
      requires Valid()
      modifies this
      ensures Valid()
      ensures Snapshot() == RemoveDropped(old(Snapshot()))
    {
      var i := 0;
      while i < |droppedBoxes|
        invariant 0 <= i <= |droppedBoxes|
        invariant |bodies| == old(|bodies|)
        invariant Snapshot() == old(Snapshot()).(bodies := bodies)
        invariant RemoveFromWorld(bodies, droppedBoxes[i..]) == RemoveFromWorld(old(bodies), droppedBoxes)
      {
        var box := droppedBoxes[i];
        assert droppedBoxes[i..][1..] == droppedBoxes[i + 1..];
        bodies := bodies[box := bodies[box].(inWorld := false)];
        i := i + 1;
      }
    }
  }
}

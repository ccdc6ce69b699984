/** The game session of libs/gameLogic.ts as values: the entities, the
    constants, and one pure transition function per event the page reacts to
    (a collision-start event, a key press, a key release, a 100 ms refresh
    tick). The class in GameLogic.dfy is proved to follow these functions,
    and GameProperties.dfy proves what the game promises about them. */
module GameSpec {

  datatype Option<T> = None | Some(value: T)

  /** The `label` tags the collision handler dispatches on; `Other` stands for
      the engine's default label, carried by the borders and the pendulum box. */
  datatype Label = Box | Ground | FinishLine | Other

  /** `gameState`: 'mainMenu' or 'game'. */
  datatype GamePhase = MainMenu | Game

  /** `boxState`: 'idle' or 'moving'. */
  datatype BoxPhase = Idle | Moving

  const BoxCategory: int := 0x0001
  const SceneCategory: int := 0x0002
  const GroundCategory: int := 0x0003
  /** The physics engine's collision mask for a body created without one. */
  const DefaultMask: int := 0xFFFF_FFFF
  const BoxSize: int := 50
  const StartScore: int := 3000
  const Penalty: int := 100
  const SpaceKey: string := "Space"
  /** Position in the body sequence of the pendulum box `boxA`. */
  const PendulumIndex: nat := 3

  /** A rigid body as far as the session sees it: its dispatch label, its
      collision filter, whether it is in the world, and the centre and size it
      was created with (integer pixels). */
  datatype Body = Body(tag: Label, category: int, mask: int, inWorld: bool,
                       x: int, y: int, width: int, height: int)

  /** A contact pair of a collision-start event, as indices into the bodies. */
  datatype Pair = Pair(bodyA: nat, bodyB: nat)

  /** The whole session: the module-level variables, the four panels'
      visibility, the number last written into the score text, the bodies
      (a body's identity is its index) and the indices of the dropped boxes. */
  datatype State = State(
    score: int,
    gameState: GamePhase,
    boxState: BoxPhase,
    currentKeyCode: string,
    mainMenuShown: bool,
    endGameShown: bool,
    winShown: bool,
    loseShown: bool,
    scoreText: Option<int>,
    bodies: seq<Body>,
    droppedBoxes: seq<nat>)

  /** Every dropped-box index names a body. */
  predicate WellFormed(s: State)
  {
    IdsIn(|s.bodies|, s.droppedBoxes)
  }

  predicate IdsIn(n: nat, ids: seq<nat>)
  {
    forall k :: 0 <= k < |ids| ==> ids[k] < n
  }

  /** The static scene, in the order it is added to the world:
      ground, left border, right border, pendulum box, finish line. */
  function SceneBodies(): (r: seq<Body>)
    ensures |r| == 5 && r[PendulumIndex].tag == Other
  {
    [ Body(Ground, GroundCategory, DefaultMask, true, 400, 610, 810, 60),
      Body(Other, BoxCategory, DefaultMask, true, 0, 300, 30, 600),
      Body(Other, BoxCategory, DefaultMask, true, 340, 300, 30, 600),
      Body(Other, BoxCategory, DefaultMask, true, 170, 10, BoxSize, BoxSize),
      Body(FinishLine, SceneCategory, SceneCategory, true, 170, 200, 309, 10) ]
  }

  /** The state once the page has loaded; the panels start as the page's
      markup has them. */
  function Initial(menu: bool, endGame: bool, win: bool, lose: bool): (r: State)
    ensures WellFormed(r) && r.droppedBoxes == []
  {
    State(StartScore, MainMenu, Idle, "", menu, endGame, win, lose, None, SceneBodies(), [])
  }

  // ---------------------------------------------------------------------
  // gameEnd

  function EndRound(s: State): (r: State)
  {
    s.(mainMenuShown := true, endGameShown := true,
       winShown := s.score > 0, loseShown := !(s.score > 0),
       gameState := MainMenu)
  }

  // ---------------------------------------------------------------------
  // The 100 ms refresh interval

  function Tick(s: State): (r: State)
  {
    var shown := s.(scoreText := Some(s.score));
    if s.score <= 0 && s.gameState == Game then EndRound(shown.(score := 0)) else shown
  }

  // ---------------------------------------------------------------------
  // The collision-start handler

  predicate InRange(n: nat, p: Pair)
  {
    p.bodyA < n && p.bodyB < n
  }

  predicate PairsIn(n: nat, ps: seq<Pair>)
  {
    forall i :: 0 <= i < |ps| ==> InRange(n, ps[i])
  }

  /** The first rule: one body is a box and one is ground. */
  predicate LandsBox(s: State, p: Pair)
    requires InRange(|s.bodies|, p)
  {
    var a, b := s.bodies[p.bodyA].tag, s.bodies[p.bodyB].tag;
    (a == Box || b == Box) && (b == Ground || a == Ground)
  }

  /** The second rule: one body is ground and one is the finish line. */
  predicate ReachesFinish(s: State, p: Pair)
    requires InRange(|s.bodies|, p)
  {
    var a, b := s.bodies[p.bodyA].tag, s.bodies[p.bodyB].tag;
    (a == Ground || b == Ground) && (a == FinishLine || b == FinishLine)
  }

  /** A landed body: relabelled ground and moved to the scene category. */
  function Settle(b: Body): (r: Body)
  {
    b.(tag := Ground, category := SceneCategory)
  }

  /** The first rule's effect on a pair. */
  function Land(s: State, p: Pair): (r: State)
    requires InRange(|s.bodies|, p)
    ensures |r.bodies| == |s.bodies|
  {
    var bs := s.bodies[p.bodyA := Settle(s.bodies[p.bodyA])];
    s.(bodies := bs[p.bodyB := Settle(bs[p.bodyB])],
       score := s.score - Penalty,
       boxState := Idle)
  }

  /** One iteration of the loop over the event's pairs: the first rule, then
      the second rule on the labels the first one left. */
  function CollidePair(s: State, p: Pair): (r: State)
    requires InRange(|s.bodies|, p)
    ensures |r.bodies| == |s.bodies| && r.droppedBoxes == s.droppedBoxes
  {
    var s1 := if LandsBox(s, p) then Land(s, p) else s;
    if ReachesFinish(s1, p) then EndRound(s1) else s1
  }

  /** A whole collision-start event, its pairs in the engine's order. */
  function CollideAll(s: State, ps: seq<Pair>): (r: State)
    requires PairsIn(|s.bodies|, ps)
    ensures |r.bodies| == |s.bodies| && r.droppedBoxes == s.droppedBoxes
    decreases |ps|
  {
    if ps == [] then s else CollideAll(CollidePair(s, ps[0]), ps[1..])
  }

  // ---------------------------------------------------------------------
  // createBoxPrefab and clearBoxes

  /** The body createBoxPrefab makes. */
  function NewBox(x: int, y: int, width: int, height: int): (r: Body)
  {
    Body(Box, BoxCategory, GroundCategory, true, x, y, width, height)
  }

  function AddBox(s: State, x: int, y: int, width: int, height: int): (r: State)
    ensures WellFormed(s) ==> WellFormed(r)
  {
    s.(bodies := s.bodies + [NewBox(x, y, width, height)],
       droppedBoxes := s.droppedBoxes + [|s.bodies|])
  }

  /** The clearBoxes loop: take each listed body out of the world, in order. */
  function RemoveFromWorld(bs: seq<Body>, ids: seq<nat>): (r: seq<Body>)
    requires IdsIn(|bs|, ids)
    ensures |r| == |bs|
    decreases |ids|
  {
    if ids == [] then bs
    else RemoveFromWorld(bs[ids[0] := bs[ids[0]].(inWorld := false)], ids[1..])
  }

  function RemoveDropped(s: State): (r: State)
    requires WellFormed(s)
    ensures WellFormed(r) && r.droppedBoxes == s.droppedBoxes
  {
    s.(bodies := RemoveFromWorld(s.bodies, s.droppedBoxes))
  }

  // ---------------------------------------------------------------------
  // The keydown and keyup listeners

  /** A key press with key code `code`, while the pendulum box is at
      (`px`, `py`). */
  function KeyDown(s: State, code: string, px: int, py: int): (r: State)
    requires WellFormed(s)
    ensures WellFormed(r)
  {
    if code == SpaceKey && s.currentKeyCode != code then
      if s.gameState == MainMenu then
        RemoveDropped(s.(score := StartScore)).(mainMenuShown := false, gameState := Game)
      else if s.gameState == Game && s.boxState == Idle then
        AddBox(s.(currentKeyCode := code), px, py + BoxSize, BoxSize, BoxSize).(boxState := Moving)
      else s
    else s
  }

  function KeyUp(s: State): (r: State)
  {
    s.(currentKeyCode := "")
  }
}

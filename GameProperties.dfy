/** What the game session promises, proved about the transition functions of
    GameSpec: the collision rules and their score, the end of a round, the
    refresh tick, the key handling with its debounce, a round that can start stuck, and a
    whole won round. */
module GameProperties {
  import opened GameSpec

  // ---------------------------------------------------------------------
  // gameEnd

  /** The round ends in the main menu with exactly one result panel shown:
      win exactly when the score is positive. Nothing else changes. */
  lemma EndRoundShowsOneResult(s: State)
    ensures var r := EndRound(s);
      && r.gameState == MainMenu && r.mainMenuShown && r.endGameShown
      && (r.winShown <==> s.score > 0)
      && (r.loseShown <==> !r.winShown)
      && r.(gameState := s.gameState, mainMenuShown := s.mainMenuShown,
            endGameShown := s.endGameShown, winShown := s.winShown,
            loseShown := s.loseShown) == s
  {
  }

  // ---------------------------------------------------------------------
  // The refresh tick

  /** The tick writes the score into the score text; a score at or below
      zero during a round becomes exactly zero and ends the round lost;
      otherwise nothing else changes. */
  lemma TickClampsAndEnds(s: State)
    ensures var r := Tick(s);
      && r.scoreText == Some(s.score)
      && r.boxState == s.boxState && r.bodies == s.bodies
      && r.droppedBoxes == s.droppedBoxes && r.currentKeyCode == s.currentKeyCode
      && (if s.score <= 0 && s.gameState == Game
          then r.score == 0 && r.gameState == MainMenu && r.mainMenuShown
               && r.endGameShown && r.loseShown && !r.winShown
          else r == s.(scoreText := Some(s.score)))
  {
  }

  // ---------------------------------------------------------------------
  // One collision pair

  /** A box meeting ground: both bodies are settled (labelled ground, in the
      scene category), the score drops by exactly the penalty, the box state
      is idle, and nothing else changes; in particular the round goes on. */
  lemma LandingPair(s: State, p: Pair)
    requires InRange(|s.bodies|, p) && LandsBox(s, p)
    ensures var r := CollidePair(s, p);
      && r.bodies[p.bodyA].tag == Ground && r.bodies[p.bodyB].tag == Ground
      && r.bodies[p.bodyA].category == SceneCategory
      && r.bodies[p.bodyB].category == SceneCategory
      && r.bodies[p.bodyA] == Settle(s.bodies[p.bodyA])
      && r.bodies[p.bodyB] == Settle(s.bodies[p.bodyB])
      && (forall k :: 0 <= k < |s.bodies| && k != p.bodyA && k != p.bodyB ==>
            r.bodies[k] == s.bodies[k])
      && r.score == s.score - Penalty
      && r.boxState == Idle
      && r.(bodies := s.bodies, score := s.score, boxState := s.boxState) == s
  {
  }

  /** Ground meeting the finish line ends the round, whatever the score. */
  lemma FinishPair(s: State, p: Pair)
    requires InRange(|s.bodies|, p) && ReachesFinish(s, p)
    ensures !LandsBox(s, p)
    ensures CollidePair(s, p) == EndRound(s)
    ensures CollidePair(s, p).gameState == MainMenu
    ensures CollidePair(s, p).mainMenuShown && CollidePair(s, p).endGameShown
  {
  }

  /** A pair that matches neither rule changes nothing. */
  lemma NeutralPair(s: State, p: Pair)
    requires InRange(|s.bodies|, p) && !LandsBox(s, p) && !ReachesFinish(s, p)
    ensures CollidePair(s, p) == s
  {
  }

  /** The box state changes on a pair only from moving to idle, by a landing. */
  lemma PairBoxPhase(s: State, p: Pair)
    requires InRange(|s.bodies|, p)
    ensures var r := CollidePair(s, p);
      r.boxState != s.boxState ==> s.boxState == Moving && r.boxState == Idle && LandsBox(s, p)
  {
  }

  // ---------------------------------------------------------------------
  // A whole collision-start event

  /** How many of the event's pairs meet the first rule when the loop comes
      to them. */
  function Landings(s: State, ps: seq<Pair>): (n: nat)
    requires PairsIn(|s.bodies|, ps)
    decreases |ps|
  {
    if ps == [] then 0
    else (if LandsBox(s, ps[0]) then 1 else 0) + Landings(CollidePair(s, ps[0]), ps[1..])
  }

  /** An event lowers the score by exactly the penalty per landing, with no
      lower bound and whatever the game state; after a landing the box state
      is idle, and without one it is unchanged. */
  lemma {:induction false} EventScore(s: State, ps: seq<Pair>)
    requires PairsIn(|s.bodies|, ps)
    ensures CollideAll(s, ps).score == s.score - Penalty * Landings(s, ps)
    ensures Landings(s, ps) > 0 ==> CollideAll(s, ps).boxState == Idle
    ensures Landings(s, ps) == 0 ==> CollideAll(s, ps).boxState == s.boxState
    decreases |ps|
  {
    if ps != [] {
      var s1 := CollidePair(s, ps[0]);
      assert PairsIn(|s1.bodies|, ps[1..]);
      EventScore(s1, ps[1..]);
    }
  }

  /** The pair holds one box and one ground-labelled body. */
  predicate BoxGround(bs: seq<Body>, p: Pair)
    requires InRange(|bs|, p)
  {
    (bs[p.bodyA].tag == Box && bs[p.bodyB].tag == Ground)
    || (bs[p.bodyA].tag == Ground && bs[p.bodyB].tag == Box)
  }

  /** The box of such a pair. */
  function BoxOf(bs: seq<Body>, p: Pair): (k: nat)
    requires InRange(|bs|, p)
  {
    if bs[p.bodyA].tag == Box then p.bodyA else p.bodyB
  }

  /** Every pair is a box on ground, and no box is in two pairs (several
      boxes may land on the same ground body). */
  predicate DistinctLandingPairs(bs: seq<Body>, ps: seq<Pair>)
  {
    && PairsIn(|bs|, ps)
    && (forall i :: 0 <= i < |ps| ==> BoxGround(bs, ps[i]))
    && (forall i, j :: 0 <= i < j < |ps| ==> BoxOf(bs, ps[i]) != BoxOf(bs, ps[j]))
  }

  /** Landing one pair leaves another pair with a different box a box on
      ground, with the same box. */
  lemma LandKeepsOtherPair(s: State, p: Pair, q: Pair)
    requires InRange(|s.bodies|, p) && InRange(|s.bodies|, q)
    requires BoxGround(s.bodies, p) && BoxGround(s.bodies, q)
    requires BoxOf(s.bodies, p) != BoxOf(s.bodies, q)
    ensures var bs := CollidePair(s, p).bodies;
      BoxGround(bs, q) && BoxOf(bs, q) == BoxOf(s.bodies, q)
  {
  }

  /** With distinct boxes landing on ground, every pair is a landing and the
      round is not ended by the event. */
  lemma {:induction false} DistinctLandings(s: State, ps: seq<Pair>)
    requires DistinctLandingPairs(s.bodies, ps)
    ensures Landings(s, ps) == |ps|
    ensures var r := CollideAll(s, ps);
      && r.gameState == s.gameState && r.mainMenuShown == s.mainMenuShown
      && r.endGameShown == s.endGameShown && r.winShown == s.winShown
      && r.loseShown == s.loseShown
    decreases |ps|
  {
    if ps != [] {
      var s1 := CollidePair(s, ps[0]);
      LandingPair(s, ps[0]);
      var rest := ps[1..];
      forall i | 0 <= i < |rest|
        ensures BoxGround(s1.bodies, rest[i]) && BoxOf(s1.bodies, rest[i]) == BoxOf(s.bodies, rest[i])
      {
        assert rest[i] == ps[i + 1];
        LandKeepsOtherPair(s, ps[0], ps[i + 1]);
      }
      forall i, j | 0 <= i < j < |rest|
        ensures BoxOf(s1.bodies, rest[i]) != BoxOf(s1.bodies, rest[j])
      {
        assert rest[i] == ps[i + 1] && rest[j] == ps[j + 1];
      }
      DistinctLandings(s1, rest);
    }
  }

  /** A settled body stays as it is through any event. */
  lemma {:induction false} SettledStays(s: State, ps: seq<Pair>, k: nat)
    requires PairsIn(|s.bodies|, ps) && k < |s.bodies|
    requires s.bodies[k] == Settle(s.bodies[k])
    ensures CollideAll(s, ps).bodies[k] == s.bodies[k]
    decreases |ps|
  {
    if ps != [] {
      var s1 := CollidePair(s, ps[0]);
      assert s1.bodies[k] == s.bodies[k];
      SettledStays(s1, ps[1..], k);
    }
  }

  /** An event of N distinct boxes landing on ground lowers the score by
      exactly N times the penalty, leaves every one of those boxes settled,
      sets the box state idle (if N > 0) and does not end the round. */
  lemma LandingEvent(s: State, ps: seq<Pair>)
    requires DistinctLandingPairs(s.bodies, ps)
    ensures var r := CollideAll(s, ps);
      && r.score == s.score - Penalty * |ps|
      && (|ps| > 0 ==> r.boxState == Idle)
      && r.gameState == s.gameState
      && (forall i :: 0 <= i < |ps| ==>
            r.bodies[BoxOf(s.bodies, ps[i])].tag == Ground
            && r.bodies[BoxOf(s.bodies, ps[i])].category == SceneCategory)
  {
    EventScore(s, ps);
    DistinctLandings(s, ps);
    forall i | 0 <= i < |ps|
      ensures CollideAll(s, ps).bodies[BoxOf(s.bodies, ps[i])] == Settle(s.bodies[BoxOf(s.bodies, ps[i])])
    {
      LandedStaysSettled(s, ps, i);
    }
  }

  /** The box of the i-th pair is settled once the event is over. */
  lemma {:induction false} LandedStaysSettled(s: State, ps: seq<Pair>, i: nat)
    requires DistinctLandingPairs(s.bodies, ps) && i < |ps|
    ensures CollideAll(s, ps).bodies[BoxOf(s.bodies, ps[i])] == Settle(s.bodies[BoxOf(s.bodies, ps[i])])
    decreases |ps|
  {
    var s1 := CollidePair(s, ps[0]);
    LandingPair(s, ps[0]);
    var rest := ps[1..];
    if i == 0 {
      var k := BoxOf(s.bodies, ps[0]);
      assert s1.bodies[k] == Settle(s.bodies[k]);
      SettledStays(s1, rest, k);
    } else {
      forall j | 0 <= j < |rest|
        ensures BoxGround(s1.bodies, rest[j]) && BoxOf(s1.bodies, rest[j]) == BoxOf(s.bodies, rest[j])
      {
        assert rest[j] == ps[j + 1];
        LandKeepsOtherPair(s, ps[0], ps[j + 1]);
      }
      forall a, b | 0 <= a < b < |rest|
        ensures BoxOf(s1.bodies, rest[a]) != BoxOf(s1.bodies, rest[b])
      {
        assert rest[a] == ps[a + 1] && rest[b] == ps[b + 1];
      }
      assert rest[i - 1] == ps[i];
      LandedStaysSettled(s1, rest, i - 1);
    }
  }

  /** At the next refresh tick after N distinct landings from a round in
      progress, the score variable is max(0, score - N * penalty) and the
      round is lost exactly when that is zero; the score text written at
      that tick shows the unclamped score - N * penalty. */
  lemma TickAfterLandings(s: State, ps: seq<Pair>)
    requires DistinctLandingPairs(s.bodies, ps) && s.gameState == Game
    ensures var t := Tick(CollideAll(s, ps));
      && t.score == (if s.score - Penalty * |ps| > 0 then s.score - Penalty * |ps| else 0)
      && (t.gameState == MainMenu <==> s.score - Penalty * |ps| <= 0)
      && (t.gameState == MainMenu ==> t.loseShown && !t.winShown)
      && t.scoreText == Some(s.score - Penalty * |ps|)
  {
    LandingEvent(s, ps);
  }

  // ---------------------------------------------------------------------
  // clearBoxes

  /** clearBoxes takes exactly the listed bodies out of the world and
      changes nothing else about any body. */
  lemma {:induction false} RemoveFromWorldAt(bs: seq<Body>, ids: seq<nat>, k: nat)
    requires IdsIn(|bs|, ids) && k < |bs|
    ensures RemoveFromWorld(bs, ids)[k] == if k in ids then bs[k].(inWorld := false) else bs[k]
    decreases |ids|
  {
    if ids != [] {
      var bs1 := bs[ids[0] := bs[ids[0]].(inWorld := false)];
      assert IdsIn(|bs1|, ids[1..]);
      RemoveFromWorldAt(bs1, ids[1..], k);
      assert ids == [ids[0]] + ids[1..];
    }
  }

  // ---------------------------------------------------------------------
  // The keydown and keyup listeners

  /** Space in the main menu starts a round: the score is the start score,
      every dropped box is out of the world while the list is kept, the menu
      is hidden, and the box state and the debounce key are untouched. */
  lemma StartRound(s: State, px: int, py: int)
    requires WellFormed(s) && s.gameState == MainMenu && s.currentKeyCode != SpaceKey
    ensures var r := KeyDown(s, SpaceKey, px, py);
      && r.score == StartScore && r.gameState == Game && !r.mainMenuShown
      && r.droppedBoxes == s.droppedBoxes
      && |r.bodies| == |s.bodies|
      && (forall k :: 0 <= k < |s.bodies| ==>
            r.bodies[k] == if k in s.droppedBoxes then s.bodies[k].(inWorld := false) else s.bodies[k])
      && (forall i :: 0 <= i < |s.droppedBoxes| ==> !r.bodies[s.droppedBoxes[i]].inWorld)
      && r.boxState == s.boxState && r.currentKeyCode == s.currentKeyCode
      && r.endGameShown == s.endGameShown && r.winShown == s.winShown
      && r.loseShown == s.loseShown && r.scoreText == s.scoreText
  {
    forall k | 0 <= k < |s.bodies|
      ensures RemoveFromWorld(s.bodies, s.droppedBoxes)[k]
              == if k in s.droppedBoxes then s.bodies[k].(inWorld := false) else s.bodies[k]
    {
      RemoveFromWorldAt(s.bodies, s.droppedBoxes, k);
    }
  }

  /** Space during a round with the box idle drops exactly one new box in the
      world: labelled box, category 1, mask 3, one box size below the
      pendulum box; the box is moving and the debounce key is Space. */
  lemma SpawnBox(s: State, px: int, py: int)
    requires WellFormed(s) && s.gameState == Game && s.boxState == Idle
    requires s.currentKeyCode != SpaceKey
    ensures var r := KeyDown(s, SpaceKey, px, py);
      && r.bodies == s.bodies + [Body(Box, 1, 3, true, px, py + 50, 50, 50)]
      && r.droppedBoxes == s.droppedBoxes + [|s.bodies|]
      && r.boxState == Moving && r.currentKeyCode == "Space"
      && r.(bodies := s.bodies, droppedBoxes := s.droppedBoxes,
            boxState := s.boxState, currentKeyCode := s.currentKeyCode) == s
  {
  }

  /** A key other than Space, or any key while Space is held, does nothing. */
  lemma IgnoredKeyDown(s: State, code: string, px: int, py: int)
    requires WellFormed(s) && (code != SpaceKey || s.currentKeyCode == SpaceKey)
    ensures KeyDown(s, code, px, py) == s
  {
  }

  /** Space while a dropped box is still moving does nothing. */
  lemma MovingIgnoresSpace(s: State, px: int, py: int)
    requires WellFormed(s) && s.gameState == Game && s.boxState == Moving
    ensures KeyDown(s, SpaceKey, px, py) == s
  {
  }

  /** A key release clears the debounce key and changes nothing else. */
  lemma KeyUpClearsKey(s: State)
    ensures KeyUp(s).currentKeyCode == ""
    ensures KeyUp(s).(currentKeyCode := s.currentKeyCode) == s
  {
  }

  /** A key press changes the box state only from idle to moving, and then
      drops exactly one box. */
  lemma KeyDownBoxPhase(s: State, code: string, px: int, py: int)
    requires WellFormed(s)
    ensures var r := KeyDown(s, code, px, py);
      r.boxState != s.boxState ==>
        s.boxState == Idle && r.boxState == Moving && |r.droppedBoxes| == |s.droppedBoxes| + 1
  {
  }

  /** A key press: its code and where the pendulum box is at that moment. */
  datatype KeyPress = KeyPress(code: string, px: int, py: int)

  /** A run of key presses with no key release between them. */
  function KeyDowns(s: State, ks: seq<KeyPress>): (r: State)
    requires WellFormed(s)
    ensures WellFormed(r)
    decreases |ks|
  {
    if ks == [] then s else KeyDowns(KeyDown(s, ks[0].code, ks[0].px, ks[0].py), ks[1..])
  }

  /** While Space is held, no run of key presses changes anything. */
  lemma {:induction false} HeldSpaceBlocksKeys(s: State, ks: seq<KeyPress>)
    requires WellFormed(s) && s.currentKeyCode == SpaceKey
    ensures KeyDowns(s, ks) == s
    decreases |ks|
  {
    if ks != [] {
      IgnoredKeyDown(s, ks[0].code, ks[0].px, ks[0].py);
      HeldSpaceBlocksKeys(s, ks[1..]);
    }
  }

  /** Once Space has dropped a box, further presses before a release drop no
      more boxes: the state stays as the drop left it. */
  lemma SpawnIsDebounced(s: State, px: int, py: int, ks: seq<KeyPress>)
    requires WellFormed(s) && s.gameState == Game && s.boxState == Idle
    requires s.currentKeyCode != SpaceKey
    ensures var d := KeyDown(s, SpaceKey, px, py);
      KeyDowns(d, ks) == d && |d.droppedBoxes| == |s.droppedBoxes| + 1
  {
    SpawnBox(s, px, py);
    HeldSpaceBlocksKeys(KeyDown(s, SpaceKey, px, py), ks);
  }

  /** The press that starts a round does not set the debounce key, so a
      second Space press with no release between them drops a box at once:
      two presses, two actions. */
  lemma MenuSpaceNotDebounced(s: State, px: int, py: int, qx: int, qy: int)
    requires WellFormed(s) && s.gameState == MainMenu && s.boxState == Idle
    requires s.currentKeyCode != SpaceKey
    ensures var r := KeyDown(KeyDown(s, SpaceKey, px, py), SpaceKey, qx, qy);
      && r.gameState == Game && r.boxState == Moving
      && |r.droppedBoxes| == |s.droppedBoxes| + 1
  {
    StartRound(s, px, py);
    SpawnBox(KeyDown(s, SpaceKey, px, py), qx, qy);
  }

  // ---------------------------------------------------------------------
  // A box still moving when a round ends

  /** Every body labelled box is one of the dropped boxes. */
  predicate BoxesDropped(s: State)
  {
    forall k :: 0 <= k < |s.bodies| && s.bodies[k].tag == Box ==> k in s.droppedBoxes
  }

  /** No body in the world is labelled box. */
  predicate NoBoxInWorld(bs: seq<Body>)
  {
    forall k :: 0 <= k < |bs| && bs[k].inWorld ==> bs[k].tag != Box
  }

  /** The engine reports contacts between bodies in the world only. */
  predicate PairsInWorld(bs: seq<Body>, ps: seq<Pair>)
  {
    PairsIn(|bs|, ps)
    && forall i :: 0 <= i < |ps| ==> bs[ps[i].bodyA].inWorld && bs[ps[i].bodyB].inWorld
  }

  /** Only a dropped box is ever labelled box: true at page load and kept by
      every event. */
  lemma BoxesDroppedInitially(menu: bool, endGame: bool, win: bool, lose: bool)
    ensures BoxesDropped(Initial(menu, endGame, win, lose))
  {
  }

  lemma BoxesDroppedByKeys(s: State, code: string, px: int, py: int)
    requires WellFormed(s) && BoxesDropped(s)
    ensures BoxesDropped(KeyDown(s, code, px, py)) && BoxesDropped(KeyUp(s)) && BoxesDropped(Tick(s))
  {
    var r := KeyDown(s, code, px, py);
    forall k | 0 <= k < |r.bodies| && r.bodies[k].tag == Box
      ensures k in r.droppedBoxes
    {
      if code == SpaceKey && s.currentKeyCode != code && s.gameState == MainMenu {
        RemoveFromWorldAt(s.bodies, s.droppedBoxes, k);
      }
    }
  }

  lemma {:induction false} BoxesDroppedByEvent(s: State, ps: seq<Pair>)
    requires PairsIn(|s.bodies|, ps) && BoxesDropped(s)
    ensures BoxesDropped(CollideAll(s, ps))
    decreases |ps|
  {
    if ps != [] {
      var s1 := CollidePair(s, ps[0]);
      assert BoxesDropped(s1) by {
        forall k | 0 <= k < |s1.bodies| && s1.bodies[k].tag == Box
          ensures k in s1.droppedBoxes
        {
          assert s1.bodies[k] == s.bodies[k];
        }
      }
      BoxesDroppedByEvent(s1, ps[1..]);
    }
  }

  /** With no box in the world, an event of contacts between bodies in the
      world lands nothing: the bodies, the score and the box state stay. */
  lemma {:induction false} NoBoxNoLanding(s: State, ps: seq<Pair>)
    requires PairsInWorld(s.bodies, ps) && NoBoxInWorld(s.bodies)
    ensures var r := CollideAll(s, ps);
      r.bodies == s.bodies && r.score == s.score && r.boxState == s.boxState
    decreases |ps|
  {
    if ps != [] {
      var s1 := CollidePair(s, ps[0]);
      assert !LandsBox(s, ps[0]);
      assert s1.bodies == s.bodies;
      NoBoxNoLanding(s1, ps[1..]);
    }
  }

  /** The press that starts a round neither resets the box state nor keeps
      any box in the world. So if a round ended while a dropped box was
      still moving, and Space is pressed before that box lands, the new
      round starts with the box moving and no box left to land: no key
      press changes the state, and no event among bodies in the world makes
      the box idle or lowers the score. */
  lemma RoundStartsStuck(s: State, px: int, py: int)
    requires WellFormed(s) && BoxesDropped(s)
    requires s.gameState == MainMenu && s.boxState == Moving && s.currentKeyCode != SpaceKey
    ensures var r := KeyDown(s, SpaceKey, px, py);
      && r.gameState == Game && r.boxState == Moving && r.score == StartScore
      && NoBoxInWorld(r.bodies)
      && (forall code, x, y :: KeyDown(r, code, x, y) == r)
      && (forall ps :: PairsInWorld(r.bodies, ps) ==>
            CollideAll(r, ps).boxState == Moving && CollideAll(r, ps).score == StartScore)
  {
    var r := KeyDown(s, SpaceKey, px, py);
    StartRound(s, px, py);
    forall k | 0 <= k < |r.bodies| && r.bodies[k].inWorld
      ensures r.bodies[k].tag != Box
    {
      RemoveFromWorldAt(s.bodies, s.droppedBoxes, k);
    }
    forall ps | PairsInWorld(r.bodies, ps)
      ensures CollideAll(r, ps).boxState == Moving && CollideAll(r, ps).score == StartScore
    {
      NoBoxNoLanding(r, ps);
    }
  }

  // ---------------------------------------------------------------------
  // A whole round

  /** From page load: Space starts a round at the start score with the menu
      hidden; after a release, Space drops box 5 below the pendulum box;
      that box landing on the ground costs one penalty and makes the box
      idle; the settled box then touching the finish line ends the round
      won. */
  lemma WonRound(menu: bool, endGame: bool, win: bool, lose: bool, px: int, py: int)
    ensures var s0 := Initial(menu, endGame, win, lose);
      var s1 := KeyDown(s0, SpaceKey, px, py);
      var s2 := KeyDown(KeyUp(s1), SpaceKey, px, py);
      var s3 := CollideAll(s2, [Pair(5, 0)]);
      var s4 := CollideAll(s3, [Pair(5, 4)]);
      && s1.score == 3000 && !s1.mainMenuShown && s1.gameState == Game && s1.boxState == Idle
      && |s2.bodies| == 6 && s2.bodies[5] == Body(Box, 1, 3, true, px, py + 50, 50, 50)
      && s2.boxState == Moving
      && s3.score == 2900 && s3.boxState == Idle && s3.gameState == Game
      && s3.bodies[5].tag == Ground
      && s4.gameState == MainMenu && s4.winShown && !s4.loseShown && s4.mainMenuShown
  {
    var s0 := Initial(menu, endGame, win, lose);
    StartRound(s0, px, py);
    var s1 := KeyDown(s0, SpaceKey, px, py);
    SpawnBox(KeyUp(s1), px, py);
    var s2 := KeyDown(KeyUp(s1), SpaceKey, px, py);
    LandingPair(s2, Pair(5, 0));
    var s3 := CollideAll(s2, [Pair(5, 0)]);
    FinishPair(s3, Pair(5, 4));
  }
}

/** The test table of the game, replayed on the model: every row builds a
    game directly from two levels with the result OnGoing, applies one rally
    and compares the three fields with the expected ones. */
module TennisTests {
  import opened Tennis

  /** Builds a game with the given levels and no result yet, applies one
      rally and returns the resulting fields. */
  method GenericTennisTest(p1: Point, p2: Point, update: GameScore) returns (actual: GameState)
    ensures actual == Step(GameState(p1, p2, OnGoing), update)
    ensures Consistent(actual) || p1 == PWin || p2 == PWin
  {
    var game := new Game(p1, p2, OnGoing);
    game.Score(update);
    actual := game.State();
  }

  /** Rallies won by player 1. */
  method TennisTestP1() {
    var a := GenericTennisTest(P0, P0, P1);   assert a == GameState(P15, P0, OnGoing);
    a := GenericTennisTest(P15, P0, P1);      assert a == GameState(P30, P0, OnGoing);
    a := GenericTennisTest(P30, P0, P1);      assert a == GameState(P40, P0, OnGoing);
    a := GenericTennisTest(P40, P0, P1);      assert a == GameState(PWin, P0, P1Win);
    a := GenericTennisTest(P15, P15, P1);     assert a == GameState(P30, P15, OnGoing);
    a := GenericTennisTest(P30, P15, P1);     assert a == GameState(P40, P15, OnGoing);
    a := GenericTennisTest(P40, P15, P1);     assert a == GameState(PWin, P0, P1Win);
    a := GenericTennisTest(P15, P30, P1);     assert a == GameState(P30, P30, OnGoing);
    a := GenericTennisTest(P30, P30, P1);     assert a == GameState(P40, P30, OnGoing);
    a := GenericTennisTest(P40, P30, P1);     assert a == GameState(PWin, P0, P1Win);
    a := GenericTennisTest(P15, P40, P1);     assert a == GameState(P30, P40, OnGoing);
    a := GenericTennisTest(P30, P40, P1);     assert a == GameState(P40, P40, OnGoing);
    a := GenericTennisTest(P40, P40, P1);     assert a == GameState(PAdv, P40, OnGoing);
    a := GenericTennisTest(P40, PAdv, P1);    assert a == GameState(P40, P40, OnGoing);
  }

  /** The same rows with the roles exchanged: player 2 holds the scorer's
      level and wins the rally. */
  method TennisTestP2() {
    var a := GenericTennisTest(P0, P0, P2);   assert a == GameState(P0, P15, OnGoing);
    a := GenericTennisTest(P0, P15, P2);      assert a == GameState(P0, P30, OnGoing);
    a := GenericTennisTest(P0, P30, P2);      assert a == GameState(P0, P40, OnGoing);
    a := GenericTennisTest(P0, P40, P2);      assert a == GameState(P0, PWin, P2Win);
    a := GenericTennisTest(P15, P15, P2);     assert a == GameState(P15, P30, OnGoing);
    a := GenericTennisTest(P15, P30, P2);     assert a == GameState(P15, P40, OnGoing);
    a := GenericTennisTest(P15, P40, P2);     assert a == GameState(P0, PWin, P2Win);
    a := GenericTennisTest(P30, P15, P2);     assert a == GameState(P30, P30, OnGoing);
    a := GenericTennisTest(P30, P30, P2);     assert a == GameState(P30, P40, OnGoing);
    a := GenericTennisTest(P30, P40, P2);     assert a == GameState(P0, PWin, P2Win);
    a := GenericTennisTest(P40, P15, P2);     assert a == GameState(P40, P30, OnGoing);
    a := GenericTennisTest(P40, P30, P2);     assert a == GameState(P40, P40, OnGoing);
    a := GenericTennisTest(P40, P40, P2);     assert a == GameState(P40, PAdv, OnGoing);
    a := GenericTennisTest(PAdv, P40, P2);    assert a == GameState(P40, P40, OnGoing);
  }

  /** A decided game ignores a further rally, and advantage converts to a win. */
  method TennisTestDecided() {
    var game := new Game(PWin, P0, P1Win);
    game.Score(P2);
    assert game.State() == GameState(PWin, P0, P1Win);
    var a := GenericTennisTest(PAdv, P40, P1);
    assert a == GameState(PWin, P0, P1Win);
  }
}

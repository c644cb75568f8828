/** A model of the scoring of a single tennis game: each player's point level,
    the rule that advances the levels when one player wins a rally, and the
    game object that applies one rally at a time and records the outcome.
 */
module Tennis {

  /** A player's standing in the game. The levels are ordered by the progress
      of a game, but a rally moves them by table, not by arithmetic. */
  datatype Point = P0 | P15 | P30 | P40 | PAdv | PWin

  /** The outcome of the game so far. */
  datatype GameResult = P1Win | P2Win | OnGoing

  /** Which player won the last rally. */
  datatype GameScore = P1 | P2

  /** The three fields of a game, as a value. */
  datatype GameState = GameState(player1: Point, player2: Point, result: GameResult)

  // ---------------------------------------------------------------------------
  // Reference notions, used to state what the rules mean

  /** Position of a level in the progression P0, P15, P30, P40, PAdv, PWin. */
  function Rank(p: Point): nat {
    match p
    case P0 => 0
    case P15 => 1
    case P30 => 2
    case P40 => 3
    case PAdv => 4
    case PWin => 5
  }

  /** The level one step further along the progression (PWin stays PWin). */
  function Next(p: Point): Point {
    match p
    case P0 => P15
    case P15 => P30
    case P30 => P40
    case P40 => PAdv
    case PAdv => PWin
    case PWin => PWin
  }

  /** The scorer wins the game with this rally: they hold the advantage (or
      have already won), or they are at 40 and the opponent is neither at 40
      nor at advantage. */
  predicate WinsGame(player: Point, opponent: Point) {
    player == PWin || player == PAdv ||
    (player == P40 && opponent != P40 && opponent != PAdv)
  }

  // ---------------------------------------------------------------------------
  // The advancement rule

  /** New levels of the scorer and of the opponent after the scorer wins a
      rally, the arms taken in order, first match wins. */
  function AdvScore(player: Point, opponent: Point): (r: (Point, Point))
    // the rally ends the game exactly when the scorer was at game point,
    // and a won game resets the loser to P0
    ensures r.0 == PWin <==> WinsGame(player, opponent)
    ensures r.0 == PWin ==> r.1 == P0
    // otherwise the opponent's advantage is cancelled back to deuce, or the
    // scorer moves exactly one level up and the opponent is left alone
    ensures r.0 != PWin ==>
              (player == P40 && opponent == PAdv && r == (P40, P40)) ||
              ((opponent != PAdv || player != P40) && r == (Next(player), opponent))
    // the scorer never loses ground and the opponent never gains any
    ensures Rank(player) <= Rank(r.0)
    ensures Rank(r.1) <= Rank(opponent)
  {
    match (player, opponent)
    case (PWin, _) => (PWin, P0)
    case (PAdv, _) => (PWin, P0)
    case (P40, PAdv) => (P40, P40)
    case (P40, P40) => (PAdv, opponent)
    case (P40, _) => (PWin, P0)
    case (P30, _) => (P40, opponent)
    case (P15, _) => (P30, opponent)
    case (P0, _) => (P15, opponent)
  }

  /** The outcome the two levels show; player 1 is looked at first. */
  function Winner(player1: Point, player2: Point): (r: GameResult)
    ensures r == P1Win <==> player1 == PWin
    ensures r == P2Win <==> player1 != PWin && player2 == PWin
    ensures r == OnGoing <==> player1 != PWin && player2 != PWin
  {
    match (player1, player2)
    case (PWin, _) => P1Win
    case (_, PWin) => P2Win
    case _ => OnGoing
  }

  // ---------------------------------------------------------------------------
  // One rally, on values

  /** The level of the player who won the rally. */
  function ScorerPoint(s: GameState, update: GameScore): Point {
    if update == P1 then s.player1 else s.player2
  }

  /** The level of the player who lost the rally. */
  function OpponentPoint(s: GameState, update: GameScore): Point {
    if update == P1 then s.player2 else s.player1
  }

  /** The game after one rally: a decided game ignores it; otherwise the
      scorer's and the opponent's levels move by the advancement rule and the
      outcome is recomputed from the new levels. */
  function Step(s: GameState, update: GameScore): (t: GameState)
    ensures s.result != OnGoing ==> t == s
    ensures s.result == OnGoing ==>
              (ScorerPoint(t, update), OpponentPoint(t, update)) ==
              AdvScore(ScorerPoint(s, update), OpponentPoint(s, update))
    ensures s.result == OnGoing ==> t.result == Winner(t.player1, t.player2)
  {
    if s.result != OnGoing then s
    else
      match update
      case P1 =>
        var (p1, p2) := AdvScore(s.player1, s.player2);
        GameState(p1, p2, Winner(p1, p2))
      case P2 =>
        var (p2, p1) := AdvScore(s.player2, s.player1);
        GameState(p1, p2, Winner(p1, p2))
  }

  /** The game after a sequence of rallies, the first one first. */
  function Play(s: GameState, updates: seq<GameScore>): GameState
    decreases |updates|
  {
    if updates == [] then s else Play(Step(s, updates[0]), updates[1..])
  }

  /** Both players at P0, nothing decided yet. */
  const INITIAL := GameState(P0, P0, OnGoing)

  /** The state invariant: at most one player has won, the loser of a won
      game is at P0, and the recorded result is the one the levels show. */
  predicate Consistent(s: GameState) {
    !(s.player1 == PWin && s.player2 == PWin) &&
    (s.player1 == PWin ==> s.player2 == P0) &&
    (s.player2 == PWin ==> s.player1 == P0) &&
    s.result == Winner(s.player1, s.player2)
  }

  /** The same game seen with the players' roles exchanged. */
  function Mirror(s: GameState): GameState {
    GameState(s.player2, s.player1,
              match s.result
              case P1Win => P2Win
              case P2Win => P1Win
              case OnGoing => OnGoing)
  }

  /** The other player. */
  function Other(update: GameScore): GameScore {
    if update == P1 then P2 else P1
  }

  // ---------------------------------------------------------------------------
  // The game object

  class Game {
    var player1: Point
    var player2: Point
    var result: GameResult

    /** A game with the given fields, as a struct literal builds it. */
    constructor (player1: Point, player2: Point, result: GameResult)
      ensures State() == GameState(player1, player2, result)
    {
      this.player1 := player1;
      this.player2 := player2;
      this.result := result;
    }

    /** The current fields as a value. */
    function State(): GameState
      reads this
    {
      GameState(player1, player2, result)
    }

    /** Applies one rally: nothing changes once the game is decided; otherwise
        the scorer's and the opponent's levels are updated by the advancement
        rule and the result is recomputed. */
    method Score(update: GameScore)
      modifies this
      ensures State() == Step(old(State()), update)
      ensures old(result) != OnGoing ==>
                player1 == old(player1) && player2 == old(player2) && result == old(result)
      ensures old(result) == OnGoing ==> result == Winner(player1, player2)
    {
      if result != OnGoing {
        return;
      }
      match update {
        case P1 =>
          var (p1, p2) := AdvScore(player1, player2);
          player1 := p1;
          player2 := p2;
        case P2 =>
          var (p2, p1) := AdvScore(player2, player1);
          player1 := p1;
          player2 := p2;
      }
      CheckWinner();
    }

    /** Recomputes the result from the two levels, leaving the levels alone. */
    method CheckWinner()
      modifies this
      ensures player1 == old(player1) && player2 == old(player2)
      ensures result == Winner(player1, player2)
    {
      result := match (player1, player2)
        case (PWin, _) => P1Win
        case (_, PWin) => P2Win
        case _ => OnGoing;
    }
  }

  // ---------------------------------------------------------------------------
  // The advancement rule, arm by arm

  /** A scorer who holds the advantage, or has already won, wins; the opponent
      goes back to P0 whatever they held. */
  lemma AdvScoreFromAdvantage(opponent: Point)
    ensures AdvScore(PAdv, opponent) == (PWin, P0)
    ensures AdvScore(PWin, opponent) == (PWin, P0)
  {
  }

  /** At 40 against advantage the advantage is cancelled; at deuce the scorer
      takes the advantage and the opponent stays at 40. */
  lemma AdvScoreDeuce()
    ensures AdvScore(P40, PAdv) == (P40, P40)
    ensures AdvScore(P40, P40) == (PAdv, P40)
  {
  }

  /** At 40 against anything but 40 or advantage the scorer wins outright. */
  lemma AdvScoreGamePoint(opponent: Point)
    requires opponent != P40 && opponent != PAdv
    ensures AdvScore(P40, opponent) == (PWin, P0)
  {
  }

  /** Below 40 the scorer moves up one level and the opponent is untouched. */
  lemma AdvScoreAdvance(player: Point, opponent: Point)
    requires player == P0 || player == P15 || player == P30
    ensures AdvScore(player, opponent) == (Next(player), opponent)
    ensures Rank(AdvScore(player, opponent).0) == Rank(player) + 1
  {
  }

  // ---------------------------------------------------------------------------
  // Properties of a rally and of a sequence of rallies

  /** Scoring for one player is the mirror image of scoring for the other. */
  lemma ScoreSymmetry(s: GameState, update: GameScore)
    ensures Step(Mirror(s), Other(update)) == Mirror(Step(s, update))
  {
  }

  /** Off the reachable states: in the hand-built state (PWin, P0, OnGoing) a
      rally won by player 2 passes player 1's PWin through the advancement
      rule, and the recomputed result says player 1 won. */
  lemma UnreachableStartRewardsOtherPlayer()
    ensures Step(GameState(PWin, P0, OnGoing), P2) == GameState(PWin, P15, P1Win)
  {
  }

  /** A rally keeps the state invariant. */
  lemma StepConsistent(s: GameState, update: GameScore)
    requires Consistent(s)
    ensures Consistent(Step(s, update))
  {
  }

  /** Playing the sequence a + b is playing a, then b. */
  lemma {:induction false} PlayAppend(s: GameState, a: seq<GameScore>, b: seq<GameScore>)
    ensures Play(s, a + b) == Play(Play(s, a), b)
    decreases |a|
  {
    if a == [] {
      assert a + b == b;
    } else {
      assert (a + b)[0] == a[0];
      assert (a + b)[1..] == a[1..] + b;
      PlayAppend(Step(s, a[0]), a[1..], b);
    }
  }

  /** Any number of rallies keeps the state invariant. */
  lemma {:induction false} PlayConsistent(s: GameState, updates: seq<GameScore>)
    requires Consistent(s)
    ensures Consistent(Play(s, updates))
    decreases |updates|
  {
    if updates != [] {
      StepConsistent(s, updates[0]);
      PlayConsistent(Step(s, updates[0]), updates[1..]);
    }
  }

  /** A decided game ignores every further rally. */
  lemma {:induction false} PlayAbsorbs(s: GameState, updates: seq<GameScore>)
    requires s.result != OnGoing
    ensures Play(s, updates) == s
    decreases |updates|
  {
    if updates != [] {
      PlayAbsorbs(Step(s, updates[0]), updates[1..]);
    }
  }

  /** Every state reached from the initial one is consistent: at most one
      player is at PWin, the other one is then at P0, and the result matches
      the levels. */
  lemma ReachableConsistent(updates: seq<GameScore>)
    ensures Consistent(Play(INITIAL, updates))
  {
    PlayConsistent(INITIAL, updates);
  }

  /** In a reached state, a player at PWin means the game is over for good:
      no further rallies change anything. */
  lemma ReachableWinAbsorbs(updates: seq<GameScore>, more: seq<GameScore>)
    requires Play(INITIAL, updates).player1 == PWin || Play(INITIAL, updates).player2 == PWin
    ensures Play(INITIAL, updates + more) == Play(INITIAL, updates)
  {
    ReachableConsistent(updates);
    PlayAppend(INITIAL, updates, more);
    PlayAbsorbs(Play(INITIAL, updates), more);
  }
}

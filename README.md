# Tennis game scoring, modelled in Dafny

This project models the scoring of a single tennis game as written in
`src/main.rs` of a small Rust kata. A game holds each player's point level
(`P0`, `P15`, `P30`, `P40`, `PAdv`, `PWin`) and a result (`P1Win`, `P2Win`,
`OnGoing`). One operation, `score`, applies a rally won by player 1 or
player 2:

- a game that is already decided ignores the rally;
- otherwise the advancement rule `adv_score` moves the scorer's and the
  opponent's levels (player 2's rallies go through the same rule with the
  arguments swapped);
- the result is then recomputed from the two levels, player 1 first.

Files:

- `tennis.dfy`, module `Tennis`: the three enums and the game's fields as a
  value (`GameState`).
  - `AdvScore` and `Winner` are pure functions.
  - `Step` is the value-level meaning of one rally, and `Play` folds `Step`
    over a sequence of rallies.
  - The class `Game` has the three mutable fields, with `Score` and
    `CheckWinner` as methods that modify the object.
  - Lemmas state the advancement rule arm by arm, player symmetry, the
    state invariant and the absorption of decided games.
- `tennis_tests.dfy`, module `TennisTests`: the test table of the source,
  row by row, checked against the class as assertions the verifier proves.

Reference notions used only to state meanings: `Rank` is the position of a
level in the progression P0 < P15 < P30 < P40 < PAdv < PWin. `Next` is the
next level in that progression. `WinsGame` says when a rally ends the game.
`Mirror` swaps the players' roles. `Consistent` is the state invariant: at
most one player at `PWin`, the other one then at `P0`, and the result
matches the levels.

The Rust code has no constructor. Its tests build a `Game` directly from any
two levels and `OnGoing`, so `Score` is specified for every starting state.
The class constructor takes all three fields, like the struct literal does.
A real game begins with both players at `P0` and `OnGoing`, the constant
`INITIAL`, and the reachability lemmas start from it. Nothing in
`src/main.rs` enforces this: its tests build a `Game` from any two levels
(src/main.rs:139), and the model follows the code.

Outside the states reachable from `INITIAL` the code gives odd answers, and
the model reproduces them. For example, the hand-built state
(`PWin`, `P0`, `OnGoing`) turns into `P1Win` when player 2 wins the rally. The
reason is that `adv_score(P0, PWin)` passes the opponent's `PWin` through
unchanged, and `check_winner` then reads it. The lemma
`Tennis.UnreachableStartRewardsOtherPlayer` proves this case.

## Model

| member | source | states |
|---|---|---|
| Tennis.AdvScore | src/main.rs:59-86 | The scorer reaches PWin exactly when they held PAdv or PWin, or were at P40 against neither P40 nor PAdv. A win resets the loser to P0. Otherwise either the opponent's advantage is cancelled to (P40, P40), or the scorer moves exactly one level up the progression and the opponent is unchanged. The scorer never drops and the opponent never rises. |
| Tennis.Winner | src/main.rs:51-57 | The result is P1Win iff player 1 is at PWin. It is P2Win iff player 1 is not at PWin and player 2 is. It is OnGoing iff neither is. Player 1 takes priority when both are at PWin. |
| Tennis.Step | src/main.rs:30-49 | A decided game is returned unchanged. Otherwise the scorer's and the opponent's new levels are the advancement rule applied to (scorer, opponent), which is swapped for player 2, and the new result agrees with Winner on the new levels. |
| Tennis.Game.constructor | src/main.rs:139 | Builds a game with exactly the given three fields, like the struct literal used in the tests. |
| Tennis.Game.Score | src/main.rs:30-49 | The new fields are Step of the old fields. If the old result was not OnGoing, all three fields are unchanged. Otherwise the new result is Winner of the new levels. |
| Tennis.Game.CheckWinner | src/main.rs:51-57 | Leaves both levels unchanged and sets the result to Winner of them. |
| Tennis.AdvScoreFromAdvantage | src/main.rs:61-66 | A scorer at PAdv or PWin gets (PWin, P0), whatever the opponent holds. |
| Tennis.AdvScoreDeuce | src/main.rs:67-72 | (P40, PAdv) gives (P40, P40), cancelling the advantage. (P40, P40) gives (PAdv, P40), leaving the opponent at P40. |
| Tennis.AdvScoreGamePoint | src/main.rs:73-75 | A scorer at P40 against anything but P40 or PAdv wins outright: (PWin, P0). |
| Tennis.AdvScoreAdvance | src/main.rs:76-84 | A scorer at P0, P15 or P30 moves exactly one level up (P0 to P15 to P30 to P40), and the opponent's level is returned unchanged. |
| Tennis.ScoreSymmetry | src/main.rs:36-45 | For every state and either player, scoring for the other player on the mirrored state gives the mirror of scoring on the original state. The mirror swaps the levels and swaps P1Win with P2Win. |
| Tennis.UnreachableStartRewardsOtherPlayer | src/main.rs:41-57 | In the hand-built state (PWin, P0, OnGoing), a rally won by player 2 gives (PWin, P15, P1Win): player 1's PWin passes through the advancement rule and decides the result. |
| Tennis.StepConsistent | src/main.rs:30-57 | One rally keeps the invariant that at most one player is at PWin, the other one is then at P0, and the result matches the levels. |
| Tennis.PlayConsistent | src/main.rs:30-57 | Any sequence of rallies from a consistent state ends in a consistent state. |
| Tennis.PlayAbsorbs | src/main.rs:31-33 | A decided game is unchanged by any sequence of further rallies. |
| Tennis.ReachableConsistent | src/main.rs:30-86 | Every state reached from (P0, P0, OnGoing) has at most one player at PWin, the other one then at P0, and a result that matches the levels. |
| Tennis.ReachableWinAbsorbs | src/main.rs:31-33 | In a state reached from (P0, P0, OnGoing), once a player is at PWin, no further rallies change anything. |
| TennisTests.GenericTennisTest | src/main.rs:138-143 | A game built from two levels and OnGoing, after one rally, has exactly the fields Step gives. If neither starting level was PWin, the outcome is consistent. The test methods in the same module check each of the 28 table rows (src/main.rs:94-128) against it. |

## Left out

- The derived `PartialEq`, `Clone`, `Copy` and `Debug` implementations. Dafny datatypes have structural equality and value semantics, and debug formatting is not behaviour.
- The Rust test harness (`#[cfg(test)]`, `#[test]`, `assert_eq!`). The test rows appear as verified assertions in `TennisTests.TennisTestP1` and `TennisTests.TennisTestP2`.
- Determinism needs no lemma: `Step` and `AdvScore` are mathematical functions.
- Set, match and tiebreak scoring, and any I/O. The code has none of these.

/**
 * The rules and the scoreboard of the rock-paper-scissors game: the outcome
 * table of `playGame`, the score it keeps, `resetGame`, the default score used
 * when nothing is saved, and the `autoPlay` toggle.
 *
 * The player's move is the string `playGame` receives; the computer's move is
 * an input (the random pick is not modelled). Results are the strings the game
 * displays, and the score update dispatches on those strings as the game does.
 */
module RockPaperScissors {
  import opened Wrappers

  datatype Move = Rock | Paper | Scissors

  /** The name the game uses for a move. */
  function MoveName(m: Move): (s: string)
    ensures ParseMove(s) == Some(m)
  {
    match m
    case Rock => "rock"
    case Paper => "paper"
    case Scissors => "scissors"
  }

  /** The move a string names, if it names one. */
  function ParseMove(s: string): (r: Option<Move>)
    ensures r.Some? <==> s == "rock" || s == "paper" || s == "scissors"
  {
    if s == "rock" then Some(Rock)
    else if s == "paper" then Some(Paper)
    else if s == "scissors" then Some(Scissors)
    else None
  }

  /**
   * The rule of the game, stated independently of `Outcome`:
   * scissors cut paper, paper covers rock, rock blunts scissors.
   */
  predicate Beats(a: Move, b: Move) {
    || (a == Scissors && b == Paper)
    || (a == Paper && b == Rock)
    || (a == Rock && b == Scissors)
  }

  const Win: string := "You win."
  const Lose: string := "You lose."
  const Tie: string := "Tie."
  /** The result `playGame` starts from and keeps when the player's move is not recognised. */
  const NoResult: string := ""

  predicate IsCounted(result: string) {
    result == Win || result == Lose || result == Tie
  }

  /** The result string of one game, decided by the player's move first and then the computer's. */
  function Outcome(playerMove: string, computerMove: Move): (result: string)
    ensures result == NoResult <==> ParseMove(playerMove).None?
    ensures result == NoResult || IsCounted(result)
    ensures ParseMove(playerMove).Some? ==>
      var p := ParseMove(playerMove).value;
      && (result == Win <==> Beats(p, computerMove))
      && (result == Lose <==> Beats(computerMove, p))
      && (result == Tie <==> p == computerMove)
  {
    if playerMove == "scissors" then
      match computerMove
      case Rock => Lose
      case Paper => Win
      case Scissors => Tie
    else if playerMove == "paper" then
      match computerMove
      case Rock => Win
      case Paper => Tie
      case Scissors => Lose
    else if playerMove == "rock" then
      match computerMove
      case Rock => Tie
      case Paper => Lose
      case Scissors => Win
    else
      NoResult
  }

  /** Equal moves always tie. */
  lemma TieOnEqualMoves(m: Move)
    ensures Outcome(MoveName(m), m) == Tie
  {
  }

  function Indicator(b: bool): nat {
    if b then 1 else 0
  }

  /** Every one of the nine pairs of moves gets exactly one of the three results. */
  lemma ExactlyOneResult(p: Move, c: Move)
    ensures IsCounted(Outcome(MoveName(p), c))
    ensures var r := Outcome(MoveName(p), c);
      Indicator(r == Win) + Indicator(r == Lose) + Indicator(r == Tie) == 1
  {
  }

  /** Swapping the two moves swaps winning and losing. */
  lemma Antisymmetry(a: Move, b: Move)
    ensures Outcome(MoveName(a), b) == Win <==> Outcome(MoveName(b), a) == Lose
    ensures Outcome(MoveName(a), b) == Tie <==> Outcome(MoveName(b), a) == Tie
  {
  }

  datatype Score = Score(wins: nat, losses: nat, ties: nat)

  function Total(s: Score): nat {
    s.wins + s.losses + s.ties
  }

  const ZeroScore: Score := Score(0, 0, 0)

  /** Adds one game's result to the score: the counter that the result string names grows. */
  function Tally(score: Score, result: string): (r: Score)
    ensures Total(r) == Total(score) + (if IsCounted(result) then 1 else 0)
    ensures r.wins == score.wins + 1 <==> result == Win
    ensures r.losses == score.losses + 1 <==> result == Lose
    ensures r.ties == score.ties + 1 <==> result == Tie
    ensures r.wins >= score.wins && r.losses >= score.losses && r.ties >= score.ties
  {
    if result == Win then score.(wins := score.wins + 1)
    else if result == Lose then score.(losses := score.losses + 1)
    else if result == Tie then score.(ties := score.ties + 1)
    else score
  }

  /** What one game shows and the score it leaves. */
  datatype Round = Round(result: string, score: Score)

  function PlayGame(score: Score, playerMove: string, computerMove: Move): (g: Round)
    ensures ParseMove(playerMove).None? ==> g.result == NoResult && g.score == score
    ensures ParseMove(playerMove).Some? ==>
      var p := ParseMove(playerMove).value;
      && (g.result == Win <==> Beats(p, computerMove))
      && (g.result == Lose <==> Beats(computerMove, p))
      && (g.result == Tie <==> p == computerMove)
      && Total(g.score) == Total(score) + 1
      && g.score.wins >= score.wins && g.score.losses >= score.losses && g.score.ties >= score.ties
      && (g.score.wins == score.wins + 1 <==> Beats(p, computerMove))
      && (g.score.losses == score.losses + 1 <==> Beats(computerMove, p))
      && (g.score.ties == score.ties + 1 <==> p == computerMove)
  {
    var result := Outcome(playerMove, computerMove);
    Round(result, Tally(score, result))
  }

  /** After a game with a recognised move exactly one counter grows by one and the other two stay. */
  lemma OnlyOneCounterChanges(score: Score, p: Move, c: Move)
    ensures var s := PlayGame(score, MoveName(p), c).score;
      || (s == score.(wins := score.wins + 1) && Beats(p, c))
      || (s == score.(losses := score.losses + 1) && Beats(c, p))
      || (s == score.(ties := score.ties + 1) && p == c)
  {
  }

  /** Zeroes the three counters, whatever they held. */
  function ResetGame(score: Score): (r: Score)
    ensures Total(r) == 0
  {
    ZeroScore
  }

  /**
   * The score the page starts with: the saved score if there is one, the
   * all-zero score when nothing is saved (`None`).
   */
  function InitialScore(saved: Option<Score>): (r: Score)
    ensures saved.Some? ==> r == saved.value
    ensures saved.None? ==> Total(r) == 0
  {
    match saved
    case Some(s) => s
    case None => ZeroScore
  }

  /** Resetting returns the board to the default it starts from when nothing is saved. */
  lemma ResetIsInitialDefault(score: Score)
    ensures ResetGame(score) == InitialScore(None)
  {
  }

  /** `autoPlay` turns automatic play on when it is off and off when it is on. */
  function AutoPlay(isAutoPlay: bool): (r: bool)
    ensures r != isAutoPlay
  {
    !isAutoPlay
  }

  lemma AutoPlayTwiceRestores(isAutoPlay: bool)
    ensures AutoPlay(AutoPlay(isAutoPlay)) == isAutoPlay
  {
  }

  /**
   * The score after a run of automatic games, each tick playing the picked
   * move (by its name) against the computer's move.
   */
  function AutoPlayTicks(score: Score, ticks: seq<(Move, Move)>): (r: Score)
    ensures r.wins >= score.wins && r.losses >= score.losses && r.ties >= score.ties
    ensures |ticks| > 0 ==> r != score
  {
    if |ticks| == 0 then score
    else
      var last := ticks[|ticks| - 1];
      PlayGame(AutoPlayTicks(score, ticks[..|ticks| - 1]), MoveName(last.0), last.1).score
  }

  /** Every automatic game counts: after n ticks the board shows n more games. */
  lemma {:induction false} AutoPlayTicksTotal(score: Score, ticks: seq<(Move, Move)>)
    ensures Total(AutoPlayTicks(score, ticks)) == Total(score) + |ticks|
  {
    if |ticks| > 0 {
      AutoPlayTicksTotal(score, ticks[..|ticks| - 1]);
    }
  }
}

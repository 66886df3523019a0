/**
 * The interface of the torus game engine as the command layer sees it. The engine's own
 * rules (board, bag, win detection) are not part of this model: a `Game` only records the
 * state-changing calls it receives, and every reply it gives is a function of that call
 * history, supplied from outside as `Answers`.
 */
module TorusModel {
  import opened Wrappers
  import JavaInt

  /** The two board topologies. */
  datatype BoardType = Standard | Torus

  /** A cell address as given by the player: a row and a column, each a Java `int`. */
  datatype Position = Position(row: JavaInt.Int32, col: JavaInt.Int32)

  /** A RuleException raised by the engine. */
  datatype RuleError = RuleError(message: string)

  /** A state-changing call on the engine. */
  datatype Call<Tok> =
    | ResetCall
    | SetBoardTypeCall(boardType: BoardType)
    | TakeCall(token: Tok)
    | PlaceCall(position: Position)

  /** The state-changing calls a game has received, oldest first. */
  type History<Tok> = seq<Call<Tok>>

  /**
   * What the engine answers, given the calls it has received so far: whether `take` and
   * `place` throw (and, for `place`, whether the move won), and the results of its queries.
   */
  datatype Answers<!Tok> = Answers(
    take: (History<Tok>, Tok) -> Outcome<RuleError>,
    place: (History<Tok>, Position) -> Result<bool, RuleError>,
    playerWhoPlaced: History<Tok> -> int,
    counter: History<Tok> -> int,
    outOfTokens: History<Tok> -> bool,
    available: History<Tok> -> string,
    rowToString: (History<Tok>, JavaInt.Int32) -> Result<string, RuleError>,
    colToString: (History<Tok>, JavaInt.Int32) -> Result<string, RuleError>)

  /** `Game.NUMBER_OF_TOKENS` and `Token.numberToToken`, both defined by the engine. */
  datatype TokenUniverse<Tok> = TokenUniverse(numberOfTokens: int, numberToToken: int -> Tok)

  /** The engine object the commands act on. */
  class Game<Tok> {
    const answers: Answers<Tok>
    var history: History<Tok>

    constructor (answers: Answers<Tok>)
      ensures this.answers == answers && history == []
    {
      this.answers := answers;
      history := [];
    }

    method Reset()
      modifies this
      ensures history == old(history) + [ResetCall]
    {
      history := history + [ResetCall];
    }

    method SetBoardType(boardType: BoardType)
      modifies this
      ensures history == old(history) + [SetBoardTypeCall(boardType)]
    {
      history := history + [SetBoardTypeCall(boardType)];
    }

    /** Selects `token` for the next placement, or throws a RuleException. */
    method Take(token: Tok) returns (outcome: Outcome<RuleError>)
      modifies this
      ensures outcome == answers.take(old(history), token)
      ensures history == old(history) + [TakeCall(token)]
    {
      outcome := answers.take(history, token);
      history := history + [TakeCall(token)];
    }

    /** Places the selected token; true when the move wins, or a RuleException. */
    method Place(position: Position) returns (won: Result<bool, RuleError>)
      modifies this
      ensures won == answers.place(old(history), position)
      ensures history == old(history) + [PlaceCall(position)]
    {
      won := answers.place(history, position);
      history := history + [PlaceCall(position)];
    }

    function PlayerWhoPlaced(): int
      reads this
    {
      answers.playerWhoPlaced(history)
    }

    function Counter(): int
      reads this
    {
      answers.counter(history)
    }

    function OutOfTokens(): bool
      reads this
    {
      answers.outOfTokens(history)
    }

    function Available(): string
      reads this
    {
      answers.available(history)
    }

    function RowToString(row: JavaInt.Int32): Result<string, RuleError>
      reads this
    {
      answers.rowToString(history, row)
    }

    function ColToString(col: JavaInt.Int32): Result<string, RuleError>
      reads this
    {
      answers.colToString(history, col)
    }
  }
}

/**
 * The textual command layer of the torus game (the `Command` enum): the six command names,
 * the parsers that turn argument text into engine values or reject it with a parse error,
 * and what each command does with the engine and replies.
 */
module Commands {
  import opened Wrappers
  import JavaInt
  import opened JavaSplit
  import opened TorusModel

  /** The commands, in declaration order. */
  datatype Command = Start | Select | Place | Bag | PrintRow | PrintCol

  /** Why argument or command text was rejected (a ParseException). */
  datatype ParseError =
    | NoSuchCommand
    | UnexpectedArgument
    | NotANumber
    | UnknownBoardType
    | InvalidToken
    | NotTwoCoordinates
    | BadCoordinates

  /** The two disjoint kinds of failure a command can end in. */
  datatype Error = Parse(parse: ParseError) | Rule(rule: RuleError)

  /** What `execute` produces: the reply text, or the exception it throws. */
  datatype Reply = Reply(text: string) | Failed(error: Error)

  const Ok: string := "OK"
  const Draw: string := "draw"
  const CoordinateSeparator: char := ';'

  /** `toString()`: the name a command is typed as. */
  function Name(c: Command): (s: string)
    ensures s != [] && forall i :: 0 <= i < |s| ==> 'a' <= s[i] <= 'z'
  {
    match c
    case Start => "start"
    case Select => "select"
    case Place => "place"
    case Bag => "bag"
    case PrintRow => "rowprint"
    case PrintCol => "colprint"
  }

  /** `Command.values()`: every command exactly once. */
  function Values(): (cs: seq<Command>)
    ensures forall c: Command :: c in cs
    ensures forall i, j :: 0 <= i < j < |cs| ==> cs[i] != cs[j]
  {
    var cs := [Start, Select, Place, Bag, PrintRow, PrintCol];
    assert forall c: Command :: c in cs by {
      forall c: Command
        ensures c in cs
      {
        var k := match c
          case Start => 0
          case Select => 1
          case Place => 2
          case Bag => 3
          case PrintRow => 4
          case PrintCol => 5;
        assert cs[k] == c;
      }
    }
    cs
  }

  /** No two commands share a name, so a name identifies its command. */
  lemma NameInjective(c: Command, d: Command)
    requires Name(c) == Name(d)
    ensures c == d
  {
  }

  /**
   * `matchCommand(s)`: the command whose name is exactly `s` (case-sensitive), or a parse
   * error when no command has that name.
   */
  method MatchCommand(s: string) returns (r: Result<Command, ParseError>)
    ensures forall c: Command :: Name(c) == s ==> r == Success(c)
    ensures (forall c: Command :: Name(c) != s) ==> r == Failure(NoSuchCommand)
  {
    var commands := Values();
    for i := 0 to |commands|
      invariant forall j :: 0 <= j < i ==> Name(commands[j]) != s
    {
      if Name(commands[i]) == s {
        forall c: Command | Name(c) == s
          ensures c == commands[i]
        {
          NameInjective(c, commands[i]);
        }
        return Success(commands[i]);
      }
    }
    forall c: Command
      ensures Name(c) != s
    {
      assert c in commands;
      var j :| 0 <= j < |commands| && commands[j] == c;
    }
    return Failure(NoSuchCommand);
  }

  /** `checkNoArgument`: only the empty argument is accepted. */
  function CheckNoArgument(argument: string): (r: Outcome<ParseError>)
    ensures r == Pass <==> argument == ""
    ensures r.Fail? ==> r.error == UnexpectedArgument
  {
    if argument != "" then Fail(UnexpectedArgument) else Pass
  }

  /** `parseInt`: `Integer.parseInt`, with its NumberFormatException turned into a parse error. */
  function ParseInt(argument: string): (r: Result<JavaInt.Int32, ParseError>)
    ensures r.Success? <==> JavaInt.ParseInt(argument).Some?
    ensures r.Success? ==> JavaInt.ParseInt(argument) == Some(r.value)
    ensures r.Failure? ==> r.error == NotANumber
  {
    match JavaInt.ParseInt(argument)
    case None => Failure(NotANumber)
    case Some(n) => Success(n)
  }

  /** `parseBoardType`: exactly "standard" and "torus" are board types. */
  function ParseBoardType(argument: string): (r: Result<BoardType, ParseError>)
    ensures r == Success(Standard) <==> argument == "standard"
    ensures r == Success(Torus) <==> argument == "torus"
    ensures r.Failure? <==> argument != "standard" && argument != "torus"
    ensures r.Failure? ==> r.error == UnknownBoardType
  {
    if argument == "standard" then Success(Standard)
    else if argument == "torus" then Success(Torus)
    else Failure(UnknownBoardType)
  }

  /**
   * `parseToken`: a Java `int` n with 0 <= n <= NUMBER_OF_TOKENS (the upper bound is
   * inclusive), mapped to its token by `Token.numberToToken`, which is taken to be total
   * on that whole range.
   */
  function ParseToken<Tok>(argument: string, universe: TokenUniverse<Tok>): (r: Result<Tok, ParseError>)
    ensures r.Success? <==>
      JavaInt.ParseInt(argument).Some? &&
      0 <= JavaInt.ParseInt(argument).value <= universe.numberOfTokens
    ensures r.Success? ==> r.value == universe.numberToToken(JavaInt.ParseInt(argument).value)
    ensures r.Failure? ==>
      r.error == if JavaInt.ParseInt(argument).None? then NotANumber else InvalidToken
  {
    match JavaInt.ParseInt(argument)
    case None => Failure(NotANumber)
    case Some(number) =>
      if number < 0 || number > universe.numberOfTokens then Failure(InvalidToken)
      else Success(universe.numberToToken(number))
  }

  /** The numeral of every token number in range selects that token; every other int is refused. */
  lemma ParseTokenOfNumeral<Tok>(n: JavaInt.Int32, universe: TokenUniverse<Tok>)
    ensures ParseToken(JavaInt.IntToString(n), universe) ==
      if 0 <= n <= universe.numberOfTokens then Success(universe.numberToToken(n))
      else Failure(InvalidToken)
  {
    JavaInt.ParseIntOfToString(n);
  }

  /**
   * `parsePosition`: the argument split at every ';' (trailing empty fields kept) must have
   * exactly two fields, each a Java `int`; the left one is the row, the right one the column.
   */
  function ParsePosition(argument: string): (r: Result<Position, ParseError>)
    ensures r == Failure(NotTwoCoordinates) <==> Count(argument, CoordinateSeparator) != 1
    ensures r.Failure? ==> r.error in {NotTwoCoordinates, BadCoordinates}
  {
    var fields := Split(argument, CoordinateSeparator);
    if |fields| != 2 then Failure(NotTwoCoordinates)
    else
      match (JavaInt.ParseInt(fields[0]), JavaInt.ParseInt(fields[1]))
      case (Some(row), Some(col)) => Success(Position(row, col))
      case _ => Failure(BadCoordinates)
  }

  /**
   * Text with exactly one separator is read as its two sides: a position when both are ints,
   * and a coordinate error otherwise.
   */
  lemma ParsePositionOfFields(a: string, b: string)
    requires CoordinateSeparator !in a && CoordinateSeparator !in b
    ensures ParsePosition(a + [CoordinateSeparator] + b) ==
      if JavaInt.ParseInt(a).Some? && JavaInt.ParseInt(b).Some?
      then Success(Position(JavaInt.ParseInt(a).value, JavaInt.ParseInt(b).value))
      else Failure(BadCoordinates)
  {
    SplitPair(a, b, CoordinateSeparator);
  }

  /** Every accepted argument is a row numeral, one ';' and a column numeral, in that order. */
  lemma ParsedPositionText(s: string)
    requires ParsePosition(s).Success?
    ensures exists a: string, b: string ::
      && s == a + [CoordinateSeparator] + b
      && CoordinateSeparator !in a && CoordinateSeparator !in b
      && JavaInt.ParseInt(a) == Some(ParsePosition(s).value.row)
      && JavaInt.ParseInt(b) == Some(ParsePosition(s).value.col)
  {
    var fields := Split(s, CoordinateSeparator);
    JoinOfSplit(s, CoordinateSeparator);
    SplitFieldsFree(s, CoordinateSeparator);
    assert fields[0] in fields && fields[1] in fields;
    assert fields[1..] == [fields[1]];
    assert s == fields[0] + [CoordinateSeparator] + fields[1];
  }

  /** Round trip: printing a row and a column with ';' between them parses back to that position. */
  lemma ParsePositionRoundTrip(row: JavaInt.Int32, col: JavaInt.Int32)
    ensures ParsePosition(JavaInt.IntToString(row) + ";" + JavaInt.IntToString(col)) ==
      Success(Position(row, col))
  {
    JavaInt.ParseIntOfToString(row);
    JavaInt.ParseIntOfToString(col);
    ParsePositionOfFields(JavaInt.IntToString(row), JavaInt.IntToString(col));
  }

  /** Arguments with a missing, an extra or a trailing separator, or empty fields, are refused. */
  lemma RejectedPositions()
    ensures ParsePosition("1;2;") == Failure(NotTwoCoordinates)
    ensures ParsePosition("") == Failure(NotTwoCoordinates)
    ensures ParsePosition("12") == Failure(NotTwoCoordinates)
    ensures ParsePosition(";") == Failure(BadCoordinates)
    ensures ParsePosition("1;") == Failure(BadCoordinates)
  {
  }

  /** The message announcing that the player who just placed has won after `counter` moves. */
  function WinMessage(player: int, counter: int): (m: string)
    ensures |m| == 7 + |JavaInt.IntToString(player)| + |JavaInt.IntToString(counter)|
    ensures m[0] == 'P'
    ensures m[1..1 + |JavaInt.IntToString(player)|] == JavaInt.IntToString(player)
    ensures m[7 + |JavaInt.IntToString(player)|..] == JavaInt.IntToString(counter)
    ensures m[1 + |JavaInt.IntToString(player)|..7 + |JavaInt.IntToString(player)|] == " wins\n"
    ensures JavaInt.MinValue <= player <= JavaInt.MaxValue ==>
      JavaInt.ParseInt(m[1..1 + |JavaInt.IntToString(player)|]) == Some(player)
    ensures JavaInt.MinValue <= counter <= JavaInt.MaxValue ==>
      JavaInt.ParseInt(m[7 + |JavaInt.IntToString(player)|..]) == Some(counter)
  {
    var p, c := JavaInt.IntToString(player), JavaInt.IntToString(counter);
    var m := "P" + p + " wins\n" + c;
    assert |m| == 7 + |p| + |c|;
    JavaInt.ParseIntOfToString(player);
    JavaInt.ParseIntOfToString(counter);
    assert m[1..1 + |p|] == p;
    assert m[1 + |p|..7 + |p|] == " wins\n";
    assert m[7 + |p|..] == c;
    m
  }

  /**
   * The reply of `place` once the engine has accepted the move: a win outranks a draw,
   * which outranks the plain acknowledgement.
   */
  function PlaceResponse(won: bool, player: int, counter: int, outOfTokens: bool): (r: string)
    ensures won ==> r == WinMessage(player, counter)
    ensures r == Draw <==> !won && outOfTokens
    ensures r == Ok <==> !won && !outOfTokens
  {
    if won then WinMessage(player, counter)
    else if outOfTokens then Draw
    else Ok
  }

  /** The win message names the winner and the move count unambiguously. */
  lemma WinMessageInjective(p1: int, c1: int, p2: int, c2: int)
    requires WinMessage(p1, c1) == WinMessage(p2, c2)
    ensures p1 == p2 && c1 == c2
  {
    var a1, a2 := JavaInt.IntToString(p1), JavaInt.IntToString(p2);
    var b1, b2 := JavaInt.IntToString(c1), JavaInt.IntToString(c2);
    assert WinMessage(p1, c1) == "P" + a1 + " wins\n" + b1;
    assert WinMessage(p2, c2) == "P" + a2 + " wins\n" + b2;
    WinTextLayout(a1, b1, a2, b2);
    JavaInt.IntToStringInjective(p1, p2);
    JavaInt.IntToStringInjective(c1, c2);
  }

  /** The text of a win message splits uniquely into its player and counter parts. */
  lemma WinTextLayout(a1: string, b1: string, a2: string, b2: string)
    requires (forall c :: c in a1 ==> c != ' ') && (forall c :: c in a2 ==> c != ' ')
    requires "P" + a1 + " wins\n" + b1 == "P" + a2 + " wins\n" + b2
    ensures a1 == a2 && b1 == b2
  {
    var r1, r2 := " wins\n" + b1, " wins\n" + b2;
    assert ("P" + a1 + " wins\n" + b1)[1..] == a1 + r1;
    assert ("P" + a2 + " wins\n" + b2)[1..] == a2 + r2;
    BlankDelimited(a1, r1, a2, r2);
    assert b1 == r1[6..] && b2 == r2[6..];
  }

  /** Two blank-free words each followed by text starting with a blank: equal concatenations split alike. */
  lemma BlankDelimited(a1: string, r1: string, a2: string, r2: string)
    requires (forall c :: c in a1 ==> c != ' ') && (forall c :: c in a2 ==> c != ' ')
    requires r1 != [] && r1[0] == ' ' && r2 != [] && r2[0] == ' '
    requires a1 + r1 == a2 + r2
    ensures a1 == a2 && r1 == r2
  {
    var s := a1 + r1;
    assert s[|a1|] == ' ' && s[|a2|] == ' ';
    forall i | 0 <= i < |a1|
      ensures s[i] != ' '
    {
      assert s[i] == a1[i] && a1[i] in a1;
    }
    forall i | 0 <= i < |a2|
      ensures s[i] != ' '
    {
      assert s[i] == (a2 + r2)[i] == a2[i] && a2[i] in a2;
    }
    assert |a1| == |a2|;
    assert a1 == s[..|a1|] == a2;
    assert r1 == s[|a1|..] == r2;
  }

  /** The three replies of `place` can always be told apart. */
  lemma PlaceResponsesDistinct(player: int, counter: int)
    ensures WinMessage(player, counter) != Draw && WinMessage(player, counter) != Ok
  {
  }

  /** The parse error a command's argument produces, if any: what `execute` checks first. */
  function ArgumentError<Tok>(cmd: Command, argument: string, universe: TokenUniverse<Tok>): (e: Option<ParseError>) {
    match cmd
    case Start => ErrorOf(ParseBoardType(argument))
    case Select => ErrorOf(ParseToken(argument, universe))
    case Place => ErrorOf(ParsePosition(argument))
    case Bag => (match CheckNoArgument(argument) case Pass => None case Fail(err) => Some(err))
    case PrintRow => ErrorOf(ParseInt(argument))
    case PrintCol => ErrorOf(ParseInt(argument))
  }

  /** The error of a failed parse, if it failed. */
  function ErrorOf<T>(r: Result<T, ParseError>): (e: Option<ParseError>) {
    match r
    case Success(_) => None
    case Failure(err) => Some(err)
  }

  /** `start`: parse the board type first; only then reset the game and set the board type. */
  method ExecuteStart<Tok>(argument: string, game: Game<Tok>) returns (reply: Reply)
    modifies game
    ensures match ParseBoardType(argument)
      case Failure(e) => reply == Failed(Parse(e)) && game.history == old(game.history)
      case Success(t) =>
        reply == Reply(Ok) && game.history == old(game.history) + [ResetCall, SetBoardTypeCall(t)]
  {
    var boardType := ParseBoardType(argument);
    if boardType.Failure? {
      return Failed(Parse(boardType.error));
    }
    game.Reset();
    game.SetBoardType(boardType.value);
    reply := Reply(Ok);
  }

  /** `select`: parse the token, then take it; "OK" unless the engine refuses. */
  method ExecuteSelect<Tok>(argument: string, game: Game<Tok>, universe: TokenUniverse<Tok>)
    returns (reply: Reply)
    modifies game
    ensures match ParseToken(argument, universe)
      case Failure(e) => reply == Failed(Parse(e)) && game.history == old(game.history)
      case Success(token) =>
        && game.history == old(game.history) + [TakeCall(token)]
        && reply == match game.answers.take(old(game.history), token)
                    case Pass => Reply(Ok)
                    case Fail(err) => Failed(Rule(err))
  {
    var token := ParseToken(argument, universe);
    if token.Failure? {
      return Failed(Parse(token.error));
    }
    var taken := game.Take(token.value);
    if taken.Fail? {
      return Failed(Rule(taken.error));
    }
    reply := Reply(Ok);
  }

  /**
   * `place`: parse the position, then place; the reply reports a win, else a draw when the
   * bag is empty, else "OK", from the engine's state after the move.
   */
  method ExecutePlace<Tok>(argument: string, game: Game<Tok>) returns (reply: Reply)
    modifies game
    ensures match ParsePosition(argument)
      case Failure(e) => reply == Failed(Parse(e)) && game.history == old(game.history)
      case Success(p) =>
        && game.history == old(game.history) + [PlaceCall(p)]
        && reply == match game.answers.place(old(game.history), p)
                    case Failure(err) => Failed(Rule(err))
                    case Success(won) =>
                      Reply(PlaceResponse(won, game.PlayerWhoPlaced(), game.Counter(), game.OutOfTokens()))
  {
    var position := ParsePosition(argument);
    if position.Failure? {
      return Failed(Parse(position.error));
    }
    var won := game.Place(position.value);
    if won.Failure? {
      return Failed(Rule(won.error));
    }
    if won.value {
      reply := Reply(WinMessage(game.PlayerWhoPlaced(), game.Counter()));
    } else if game.OutOfTokens() {
      reply := Reply(Draw);
    } else {
      reply := Reply(Ok);
    }
  }

  /** `bag`: no argument allowed; the reply is the engine's listing, unchanged. */
  method ExecuteBag<Tok>(argument: string, game: Game<Tok>) returns (reply: Reply)
    ensures argument == "" ==> reply == Reply(game.Available())
    ensures argument != "" ==> reply == Failed(Parse(UnexpectedArgument))
  {
    var checked := CheckNoArgument(argument);
    if checked.Fail? {
      return Failed(Parse(checked.error));
    }
    reply := Reply(game.Available());
  }

  /** `rowprint`: the argument must be a Java int before the engine is asked for that row. */
  method ExecutePrintRow<Tok>(argument: string, game: Game<Tok>) returns (reply: Reply)
    ensures JavaInt.ParseInt(argument).None? ==> reply == Failed(Parse(NotANumber))
    ensures JavaInt.ParseInt(argument).Some? ==>
      reply == match game.RowToString(JavaInt.ParseInt(argument).value)
               case Success(text) => Reply(text)
               case Failure(err) => Failed(Rule(err))
  {
    var row := ParseInt(argument);
    if row.Failure? {
      return Failed(Parse(row.error));
    }
    var text := game.RowToString(row.value);
    if text.Failure? {
      return Failed(Rule(text.error));
    }
    reply := Reply(text.value);
  }

  /** `colprint`: the argument must be a Java int before the engine is asked for that column. */
  method ExecutePrintCol<Tok>(argument: string, game: Game<Tok>) returns (reply: Reply)
    ensures JavaInt.ParseInt(argument).None? ==> reply == Failed(Parse(NotANumber))
    ensures JavaInt.ParseInt(argument).Some? ==>
      reply == match game.ColToString(JavaInt.ParseInt(argument).value)
               case Success(text) => Reply(text)
               case Failure(err) => Failed(Rule(err))
  {
    var col := ParseInt(argument);
    if col.Failure? {
      return Failed(Parse(col.error));
    }
    var text := game.ColToString(col.value);
    if text.Failure? {
      return Failed(Rule(text.error));
    }
    reply := Reply(text.value);
  }

  /**
   * `execute`: each command's own behaviour. A parse failure happens exactly when the
   * argument is malformed for that command, and then the game has received no call; the
   * query commands never change the game. Otherwise the reply and the calls the game
   * receives are those of the command's own body.
   */
  method Execute<Tok>(cmd: Command, argument: string, game: Game<Tok>, universe: TokenUniverse<Tok>)
    returns (reply: Reply)
    modifies game
    ensures (reply.Failed? && reply.error.Parse?) <==> ArgumentError(cmd, argument, universe).Some?
    ensures ArgumentError(cmd, argument, universe).Some? ==>
      reply == Failed(Parse(ArgumentError(cmd, argument, universe).value)) &&
      game.history == old(game.history)
    ensures cmd in {Bag, PrintRow, PrintCol} ==> game.history == old(game.history)
    ensures cmd == Start && ParseBoardType(argument).Success? ==>
      && reply == Reply(Ok)
      && game.history == old(game.history) + [ResetCall, SetBoardTypeCall(ParseBoardType(argument).value)]
    ensures cmd == Select && ParseToken(argument, universe).Success? ==>
      var token := ParseToken(argument, universe).value;
      && game.history == old(game.history) + [TakeCall(token)]
      && reply == match game.answers.take(old(game.history), token)
                  case Pass => Reply(Ok)
                  case Fail(err) => Failed(Rule(err))
    ensures cmd == Place && ParsePosition(argument).Success? ==>
      var p := ParsePosition(argument).value;
      && game.history == old(game.history) + [PlaceCall(p)]
      && reply == match game.answers.place(old(game.history), p)
                  case Failure(err) => Failed(Rule(err))
                  case Success(won) =>
                    Reply(PlaceResponse(won, game.PlayerWhoPlaced(), game.Counter(), game.OutOfTokens()))
    ensures cmd == Bag && argument == "" ==> reply == Reply(game.Available())
    ensures cmd == PrintRow && JavaInt.ParseInt(argument).Some? ==>
      reply == match game.RowToString(JavaInt.ParseInt(argument).value)
               case Success(text) => Reply(text)
               case Failure(err) => Failed(Rule(err))
    ensures cmd == PrintCol && JavaInt.ParseInt(argument).Some? ==>
      reply == match game.ColToString(JavaInt.ParseInt(argument).value)
               case Success(text) => Reply(text)
               case Failure(err) => Failed(Rule(err))
  {
    match cmd
    case Start => reply := ExecuteStart(argument, game);
    case Select => reply := ExecuteSelect(argument, game, universe);
    case Place => reply := ExecutePlace(argument, game);
    case Bag => reply := ExecuteBag(argument, game);
    case PrintRow => reply := ExecutePrintRow(argument, game);
    case PrintCol => reply := ExecutePrintCol(argument, game);
  }
}

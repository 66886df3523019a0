# Torus game: the command layer, verified

The torus game is a two-player board game driven by text commands. `Command.java` is the
layer between the typed text and the game engine. It has six commands (`start`, `select`,
`place`, `bag`, `rowprint`, `colprint`). It looks up a command by its name. It parses the
command's argument into an engine value: a board type, a token number, a `row;col`
position or a row/column index. Malformed text is rejected with a parse error. Otherwise
the command calls the engine and chooses the reply text.

This project models that layer in Dafny and proves what it accepts, what it rejects and
what it replies:

- `Wrappers.dfy`: `Option`, `Result` and `Outcome`. They stand in for Java's exceptions.
- `JavaInt.dfy`: Java's `int` range, `Integer.parseInt` in radix 10 and `Integer.toString`.
  It proves the two round trips between them and that `Integer.toString` is injective.
- `JavaSplit.dfy`: `String.split(";", -1)`. Splitting at every separator keeps trailing
  empty fields, and the empty string gives one empty field. It proves that split and join
  are inverse to each other.
- `TorusModel.dfy`: the engine as the commands see it, with `BoardType`, `Position`,
  `RuleError` and a `Game` class. The engine's source is not part of this model. So a `Game`
  records the state-changing calls it receives (`reset`, `setBoardType`, `take`, `place`),
  and each of its answers is a function of that call history. These functions (`Answers`)
  are supplied from outside. `Game.NUMBER_OF_TOKENS` and `Token.numberToToken` are a
  parameter too (`TokenUniverse`).
- `Commands.dfy`: the enum, `matchCommand`, the parsers, the choice of the `place` reply
  and the six `execute` bodies. `execute` is specified so that a parse failure happens
  exactly when the argument is malformed for its command, and then the game has received
  no call at all.

## Model

| member | source | states |
|---|---|---|
| `Commands.Name` | src/edu/kit/informatik/torus/io/Command.java:13-91 | `toString()` gives the name each constant was built with: a non-empty word of lower-case ASCII letters only, so text containing any upper-case letter names no command |
| `Commands.NameInjective` | src/edu/kit/informatik/torus/io/Command.java:13-60 | the six command names given to the enum constants are pairwise distinct, so a name determines its command |
| `Commands.Values` | src/edu/kit/informatik/torus/io/Command.java:63 | `Command.values()` lists every command, each exactly once |
| `Commands.MatchCommand` | src/edu/kit/informatik/torus/io/Command.java:62-69 | returns the command whose `toString()` equals the text exactly (case-sensitive), so `matchCommand(c.toString()) == c` for every command; text that is no command's name gives the "no command" parse error |
| `Commands.CheckNoArgument` | src/edu/kit/informatik/torus/io/Command.java:82-86 | passes if and only if the argument is empty, and otherwise fails with the unexpected-argument error |
| `Commands.ParseInt` | src/edu/kit/informatik/torus/io/Command.java:93-99 | succeeds exactly when `Integer.parseInt` does, with its value; otherwise fails with the not-a-number error |
| `Commands.ParseBoardType` | src/edu/kit/informatik/torus/io/Command.java:101-109 | "standard" gives STANDARD and "torus" gives TORUS, both if and only if; every other string (other case included) gives the unknown-board-type error |
| `Commands.ParseToken` | src/edu/kit/informatik/torus/io/Command.java:111-122 | succeeds if and only if the text is a Java int n with 0 <= n <= NUMBER_OF_TOKENS (upper bound inclusive), returning `numberToToken(n)`; non-numbers and out-of-range numbers fail with distinct errors |
| `Commands.ParseTokenOfNumeral` | src/edu/kit/informatik/torus/io/Command.java:111-122 | the decimal numeral of any int n selects `numberToToken(n)` when n is in [0, NUMBER_OF_TOKENS] and is refused as an invalid token otherwise |
| `Commands.ParsePosition` | src/edu/kit/informatik/torus/io/Command.java:124-138 | fails with "not exactly 2 coordinates" if and only if the text does not contain exactly one ';'; every failure is that error or a coordinate error |
| `Commands.ParsePositionOfFields` | src/edu/kit/informatik/torus/io/Command.java:124-138 | for `a;b` with no ';' in a or b, the result is `Position(row of a, col of b)` when both sides are Java ints, and a coordinate error otherwise |
| `Commands.ParsedPositionText` | src/edu/kit/informatik/torus/io/Command.java:124-137 | every accepted text is a numeral of the row, one ';', then a numeral of the column, in that order |
| `Commands.ParsePositionRoundTrip` | src/edu/kit/informatik/torus/io/Command.java:124-138 | `parsePosition(toString(r) + ";" + toString(c)) == Position(r, c)` for all 32-bit r and c |
| `Commands.RejectedPositions` | src/edu/kit/informatik/torus/io/Command.java:125-136 | "1;2;", "" and "12" fail the two-coordinates check; ";" and "1;" fail the coordinate parse |
| `Commands.PlaceResponse` | src/edu/kit/informatik/torus/io/Command.java:33-39 | a win always gives the win message, even with an empty bag; "draw" if and only if there is no win and the bag is exhausted; "OK" if and only if neither holds |
| `Commands.WinMessage` | src/edu/kit/informatik/torus/io/Command.java:34 | the win text is "P", then the player's numeral, then " wins" and a line break, then the counter's numeral; its length is exactly that, and for int values `Integer.parseInt` reads the player and the counter back from their two positions |
| `Commands.WinMessageInjective` | src/edu/kit/informatik/torus/io/Command.java:34 | the text `"P" + player + " wins\n" + counter` determines both the player and the move counter |
| `Commands.PlaceResponsesDistinct` | src/edu/kit/informatik/torus/io/Command.java:33-39 | a win message is never "draw" nor "OK" |
| `Commands.ExecuteStart` | src/edu/kit/informatik/torus/io/Command.java:16-21 | an unknown board type gives a parse error and leaves the game without any call; otherwise the game receives reset and then setBoardType with the parsed type, and the reply is "OK" |
| `Commands.ExecuteSelect` | src/edu/kit/informatik/torus/io/Command.java:25-28 | a token parse error leaves the game without any call; otherwise the game receives take of the parsed token, and the reply is "OK" or the engine's rule error |
| `Commands.ExecutePlace` | src/edu/kit/informatik/torus/io/Command.java:32-40 | a position parse error leaves the game without any call; otherwise the game receives place, and the reply is the engine's rule error or the `PlaceResponse` of the engine's state after the move |
| `Commands.ExecuteBag` | src/edu/kit/informatik/torus/io/Command.java:44-47 | any non-empty argument is a parse error; an empty one returns the engine's listing unchanged |
| `Commands.ExecutePrintRow` | src/edu/kit/informatik/torus/io/Command.java:51-53 | a non-int argument is a parse error before the engine is asked; otherwise the reply is the engine's row text or its rule error |
| `Commands.ExecutePrintCol` | src/edu/kit/informatik/torus/io/Command.java:57-59 | a non-int argument is a parse error before the engine is asked; otherwise the reply is the engine's column text or its rule error |
| `Commands.Execute` | src/edu/kit/informatik/torus/io/Command.java:72 | a reply is a parse failure if and only if the argument is malformed for that command; then the game received no call; `bag`, `rowprint` and `colprint` never change the game; otherwise each command's reply and calls are those of its own body: `start` replies "OK" after reset and setBoardType, `select` appends take and replies "OK" or the rule error, `place` appends place and replies the rule error or the `PlaceResponse`, and `bag`, `rowprint` and `colprint` reply with the engine's listing, row text or column text (or its rule error) |
| `JavaInt.ParseInt` | src/edu/kit/informatik/torus/io/Command.java:95 | `Integer.parseInt` accepts only an optional leading sign followed by at least one digit, with nothing else in the text |
| `JavaInt.ParseIntOfToString` | src/edu/kit/informatik/torus/io/Command.java:95 | `Integer.parseInt(Integer.toString(n))` is n for every n in the int range, and fails for every n outside it |
| `JavaInt.ToStringOfParseInt` | src/edu/kit/informatik/torus/io/Command.java:114 | a canonical numeral (no '+', no superfluous leading zero, no "-0") that parses is exactly what `Integer.toString` prints for its value |
| `JavaInt.IntToString` | src/edu/kit/informatik/torus/io/Command.java:34 | the decimal text of an int, as string concatenation prints it, is non-empty, uses only digits and '-', and starts with '-' exactly when the number is negative |
| `JavaInt.IntToStringCanonical` | src/edu/kit/informatik/torus/io/Command.java:34 | `Integer.toString` prints only canonical numerals |
| `JavaInt.IntToStringInjective` | src/edu/kit/informatik/torus/io/Command.java:34 | distinct ints have distinct decimal texts |
| `JavaSplit.Split` | src/edu/kit/informatik/torus/io/Command.java:125 | `split(";", -1)` yields one field more than there are separators, so the empty string yields one field |
| `JavaSplit.SplitFieldsFree` | src/edu/kit/informatik/torus/io/Command.java:125 | no field of a split contains the separator |
| `JavaSplit.JoinOfSplit` | src/edu/kit/informatik/torus/io/Command.java:125 | joining the fields of a split with the separator restores the original text |
| `JavaSplit.SplitOfJoin` | src/edu/kit/informatik/torus/io/Command.java:125 | splitting a join of separator-free fields gives back those fields, empty fields included |
| `JavaSplit.SplitPair` | src/edu/kit/informatik/torus/io/Command.java:125-126 | `a;b` with no ';' in a or b splits into exactly the two fields a and b |

## Left out

- The game engine (`Game`, `Board`, `TokenBag`, `BoardType`, `Position`, `Token`, `RuleException`) is not part of this model. No placement, wrap-around, bag or win rule is modelled. The engine's replies are arbitrary functions of the calls it has received (`TorusModel.Answers`).
- A `Game` records every `take` and `place` it receives, including those it refuses. Nothing is claimed about what a refused engine call does to the engine's state.
- `Token.numberToToken` is modelled as a total function from `int` to tokens. It cannot fail for any number, including NUMBER_OF_TOKENS itself, which the inclusive bound of `parseToken` lets through. So `Commands.ParseToken` and `Commands.ParseTokenOfNumeral` promise a token at that bound. Whether the engine's conversion accepts it is engine code that is not part of this model.
- `Game.reset` and `Game.setBoardType` are modelled as calls that cannot fail. Whether they can throw a RuleException depends on engine code that is not part of this model.
- The engine's queries (`getPlayerWhoPlaced`, `getCounter`, `outOfTokens`, `getAvailable`, `rowToString`, `colToString`) are modelled as side-effect free. So `place` asking `outOfTokens` only after a non-winning move is the same as reading both answers in the model. `rowToString` and `colToString` may raise a RuleException. The other four queries are modelled as plain values.
- `getPlayerWhoPlaced` is modelled as an `int` printed in decimal. Its real type is engine code that is not part of this model.
- JavaInt.ParseInt: accepts ASCII digits only. `Integer.parseInt` reads digits through `Character.digit`, which also accepts other Unicode decimal digits (fullwidth digits, for example). The model rejects those strings, so in that respect it is weaker than Java.
- `String.split` is modelled only for a separator that is a single character with no regular-expression meaning, which is the one case `Command.java` uses.
- The wording of the error messages is not modelled. Each failure is one constructor of `ParseError` or the engine's `RuleError`.
- The console loop that reads lines, splits them into command and argument and prints replies is I/O and is not part of this model. The same goes for `ParseException`, a plain exception class.

# GraphingCalculator expression core in Dafny

This project models the expression compiler of GraphingCalculator, a graphing
calculator that has a JavaScript front end and an older Java back end, and
proves properties of the model.

- **JavaScript pipeline** (`calc/`). `tokenize` turns an expression string
  into catalog tokens (`Tokens`, `Lexer`). `infixToPostfix` reorders them with
  a shunting-yard over nested function scopes (`ShuntingYard`, `PostfixOrder`).
  `condense` fuses digit runs into operand literals and drops spaces
  (`Condenser`, `CondenserLaws`). `buildTree`, `assignVariables` and `solve`
  build the expression tree and evaluate it (`ExpressionTree`).
- **Java pipeline** (`src/tree/ExpressionTree.java`). `parseInfix` scans
  characters into postfix tokens and collects a function's argument tokens in
  one shared sublist (`JavaTypes`, `JavaParse`). `concatenateExpression` fuses
  runs and removes spaces (`JavaConcat`). The constructor applies one pass per
  function token to the shared sublist, then `buildTree` and `solveRec` build
  and evaluate the tree (`JavaEval`). `JavaExamples` states four shapes of
  integer case from the repository's operation tests, each as a lemma over
  every input of that shape. The shapes are two spaced one-digit numbers, two
  spaced two-digit numbers, a digit `^` two digits, and a digit, an unspaced
  operator and a digit. It also shows that the constructor throws on the
  unary-minus test `"-(100 - -5)"`.
- **Legacy Java tree** (`src/ExpressionTree.java`): its own `parseInfix`,
  `buildTree` and `toString` (`JavaLegacy`). A character with no branch of
  its own gets the `null` type there. On an empty stack that token is
  pushed; if the constructor then returns, the tree is that token's leaf
  alone. An operator that reaches the token, or such a character read over a
  non-empty stack, throws in `precedence`, and inputs such as `"#)"`, `"#("`
  and `"#ab"` throw elsewhere.
- **Graph cache** (`gui/`). `shiftAndDelete` is a non-circular array shift
  (`ArrayShift`). The sample cache is shifted when the graph pans
  (`FunctionCaches`). Zooming calls `clearCache()` with no index, which
  leaves the cached samples as they are (see Findings). `scaleCache`, and
  `clearCache` with an index, are helpers that nothing calls.

Numbers are `real`s. `Math.pow` and the `Math` functions are fields of a
`Numeric.MathLib` parameter and stay uninterpreted. Each loop of the source is
a method proved equal to a function that specifies it. The properties are
lemmas about those functions. `Stacks` holds the reversal that both
converters use when they pop a stack to the end. The lexer is parameterised by its name lookup.
`ShortestFirst` is the lookup as written, and the method `Lexer.Tokenize` uses
it. `LongestFirst` is the corrected lookup described under Findings. `condense`
leaves a literal run that ends the stream as separate digits (see Findings).
`tokenize` makes a SPACE token only of a space; other white space becomes the
error `UndefinedToken`.

## Model

| member | source | states |
|---|---|---|
| Tokens.Precedence | calc/token.js:32-42 | ADDITION, SUBTRACTION and NEGATIVE bind at 1, MULTIPLICATION and DIVISION at 2, POW at 3, every other token at -1; a precedence is positive exactly for the five operators and NEGATIVE |
| Tokens.PrecedenceTable | calc/token.js:32-42 | the precedence table entry by entry, with OPEN_PARENTHESIS at -1 so no operator ever pops it |
| Tokens.CategoriesDisjoint | calc/token.js:12-30 | the operator, function, operand, constant and variable type-id ranges never overlap |
| Tokens.DigitMapEntries | calc/token.js:51-60 | every digit 0..9 maps to an operand token whose type id and value are the digit, whose glyph is the digit's character and which has no arguments |
| Tokens.OperatorMapEntries | calc/token.js:110-116 | the operator map has exactly the keys `+ - * / ^`, each mapped to an operator token showing that glyph |
| Tokens.FunctionMapEntries | calc/token.js:118-133 | every function-map key has two to four lower-case letters and maps to a function token showing that key with an empty argument list |
| Tokens.ShortStringsAreNotNames | calc/token.js:118-133 | no string of fewer than two characters is a function name |
| Tokens.NonLetterExcludesName | calc/token.js:118-133 | a string holding any character other than a lower-case letter is not a function name |
| Tokens.AbsSharesLnType | calc/token.js:80-84 | ABS reuses LN's type id 27 and is a function token distinct from LN; PI and E have type ids 28 and 29 and are not operands |
| Lexer.Substring | calc/lexer.js:26 | JavaScript `substring` clamped at the end of the string: the result is never longer than requested and is exactly as long when the range fits |
| Lexer.FindFunction | calc/lexer.js:25-37 | the lookup grows the candidate from length `j`; on success the length is between `j` and 4, the candidate names a function and the token is that map entry; otherwise the error is UnknownFunction |
| Lexer.FindFunctionFindsShortest | calc/lexer.js:25-37 | the lookup returns the SHORTEST name from `j` on, and fails exactly when no length from `j` to 4 names a function |
| Lexer.FindFunctionLongest | calc/lexer.js:25-37 | the corrected longest-first lookup: on success a length between 2 and `j` that names a function, with its map entry |
| Lexer.FindFunctionLongestFindsLongest | calc/lexer.js:25-37 | the corrected lookup returns the LONGEST name up to `j`, and fails exactly when no length from 2 to `j` names one |
| Lexer.LookupName | calc/lexer.js:25-40 | either lookup returns a function token whose name is the two to four characters at `i`, or UnknownFunction |
| Lexer.LookupNameFails | calc/lexer.js:29-36 | both lookups fail exactly when no two to four characters at `i` name a function |
| Lexer.ScanStep | calc/lexer.js:10-79 | one turn of the scan loop emits at least one entry, never more entries than characters consumed, and does not run past the string |
| Lexer.Defined | calc/lexer.js:17-18 | the scan's result is defined exactly when no entry is undefined (a non-space white-space character gives `digitMap.get(NaN)`), and then holds the same tokens; otherwise UndefinedToken |
| Lexer.MatchingClose | calc/lexer.js:86-98 | the inner retag loop returns, when it finds one, the index of a CLOSE_PARENTHESIS at or after the start |
| Lexer.RetagFrom | calc/lexer.js:83-100 | the retag pass keeps the length, changes only CLOSE_PARENTHESIS entries and only into FUNCTION_CLOSE, and leaves everything before the current function's argument untouched |
| Lexer.RetagMatched | calc/lexer.js:91-94 | a function token whose matching close is found has that entry retagged before the pass moves on |
| Lexer.RetagUnmatched | calc/lexer.js:88-99 | a function token with no matching close leaves the tokens as they are |
| Lexer.Tokenize | calc/lexer.js:5-103 | the method (scan loop, then retag loop) returns exactly the lexer specification `TokenizeSpec` |
| Lexer.ScanExpression | calc/lexer.js:9-80 | the first loop returns the scan of the whole expression from position 0 |
| Lexer.ScanCharacter | calc/lexer.js:10-79 | the loop body for one character equals one scan step |
| Lexer.ScanFunctionName | calc/lexer.js:21-42 | the function branch equals the scan step: the token and FUNCTION_OPEN, resuming past the character after the name |
| Lexer.LookupFunction | calc/lexer.js:25-37 | the `while (!functionMap.has(show))` loop computes the shortest-first lookup from length 2 |
| Lexer.RetagFunctionCloses | calc/lexer.js:83-100 | the second loop computes the retag pass from index 0 |
| Lexer.RetagMatchingClose | calc/lexer.js:85-98 | the inner loop for one function token keeps the length and leaves the rest of the pass's result unchanged |
| Lexer.SingleCharStep | calc/lexer.js:13-79 | a space, digit, `x`, parenthesis, `.`, `e` or operator glyph is one step emitting the single catalog token displaying that character |
| Lexer.SymbolStep | calc/lexer.js:46-63 | `x`, `(`, `)`, `.` and `e` each emit the catalog token displaying that character |
| Lexer.OperatorScan | calc/lexer.js:71-74 | an operator glyph emits its operator-map entry and moves on one character |
| Lexer.OperatorStep | calc/lexer.js:71-74 | an operator glyph emits one single-character token displaying it |
| Lexer.OperatorTokensAreSingleChar | calc/token.js:110-116 | every operator-map token is one of the single-character tokens |
| Lexer.DisplaysStep | calc/lexer.js:9-80 | one displayed character at the front of what the scan appends extends the display relation |
| Lexer.ScanSingleChars | calc/lexer.js:9-80 | scanning a run of single-character glyphs succeeds, keeps what was emitted before and appends one token per character, each displaying it |
| Lexer.ScanUnfold | calc/lexer.js:9-80 | one turn of the scan loop: an error stops the scan, otherwise it resumes at the step's next position with its entries appended |
| Lexer.NameFound | calc/lexer.js:39-42 | a found name emits its token and FUNCTION_OPEN and skips the character after the name |
| Lexer.NameMissing | calc/lexer.js:34-36 | a letter that starts no name the lookup finds makes the scan fail with UnknownFunction |
| Lexer.RetagWithoutFunctionsFrom | calc/lexer.js:83-100 | with no function token from `i` on the retag pass changes nothing |
| Lexer.TokenizeSingleChars | calc/lexer.js:5-103 | a string made only of single-character glyphs lexes to one token per character, each the catalog token displaying it |
| Lexer.SingleCharTokensAreNotFunctions | calc/token.js:49-95 | no single-character token is a function token |
| Lexer.ScanLength | calc/lexer.js:9-80 | the scan never emits more entries than the expression has characters |
| Lexer.TokenizeLength | calc/lexer.js:5-103 | the lexer returns at most one token per input character |
| Lexer.MatchingCloseIsFirstAtDepthZero | calc/lexer.js:86-98 | the close found balances the parentheses read since the start, and every earlier close met with the counter still open is skipped |
| Lexer.BalanceCons | calc/lexer.js:89-97 | the counter changes token by token: +1 per OPEN_PARENTHESIS, -1 per CLOSE_PARENTHESIS |
| Lexer.MatchingCloseBalance | calc/lexer.js:86-98 | at the close found, the parentheses read since the start balance the starting counter |
| Lexer.OpenBeforeMatchingClose | calc/lexer.js:86-98 | before the close found the counter never drops below zero, and at every close passed it is positive |
| Lexer.DefinedAllSome | calc/lexer.js:17-18 | a scan result with no undefined entry is exactly its tokens |
| Lexer.TokenizePi | calc/lexer.js:65-68 | `2pi` lexes to TWO then PI, consuming both letters; a lone `p` is an unknown character |
| Lexer.ScanSkipsAfterName | calc/lexer.js:42 | the character after a function name is skipped unread, whatever it is (`sin]x)` resumes after `]`) |
| Lexer.TokenizeRejectsUnknownName | calc/lexer.js:33-36 | `q(x)` fails with UnknownFunction |
| Lexer.TokenizeRejectsTab | calc/lexer.js:17-18 | a tab passes the `isNaN` test, gives an undefined token, and the lexer fails |
| Lexer.HyperbolicNamesShadowed | calc/lexer.js:25-37 | as written, `sinh(0)` is lexed as SIN of length 3 and the `h` is skipped as if it were the parenthesis |
| Lexer.NoLongerName | calc/token.js:118-133 | a function name followed by `(` has no longer prefix within four characters that is also a name |
| Lexer.NameStartsLookup | calc/lexer.js:21-23 | every function name begins with a letter that enters the name branch |
| Lexer.LongestLookupReachesEveryName | calc/lexer.js:25-37 | with the corrected longest-first lookup every function-map name followed by `(` is lexed as its own token |
| Stacks.Reversed | calc/postfix.js:190-195 | popping a stack to the end yields its entries from the top down: same length, entry k is entry length-1-k of the stack; both converters, the JavaScript one and the Java one (src/tree/ExpressionTree.java:371-375), use this one definition |
| ShuntingYard.EmitAll | calc/postfix.js:40-44 | emitting appends to the innermost open function's arguments, or to the output when none is open, and touches neither scopes nor the coefficient flag |
| ShuntingYard.EmitAllFrame | calc/postfix.js:40-44 | emitting changes only the sink: the output and every outer function stay as they were |
| ShuntingYard.Emit | calc/postfix.js:40-44 | one emitted token lands at the end of the sink |
| ShuntingYard.WithTop | calc/postfix.js:91 | replacing the innermost operator scope keeps every outer scope |
| ShuntingYard.PushOperator | calc/postfix.js:82-86 | pushing onto the innermost scope fails (a TypeError in the source) exactly when no scope is left, and otherwise appends to that scope |
| ShuntingYard.ApplyCoefficient | calc/postfix.js:106-109 | after a pending coefficient is applied the flag is cleared |
| ShuntingYard.PopTo | calc/postfix.js:92-99 | popping the innermost scope down to `m` entries sends the popped operators to the sink from the top down and keeps the outer scopes and the flag |
| ShuntingYard.PopHeight | calc/postfix.js:92-93 | the operator loop's stopping height lies within the scope |
| ShuntingYard.OpenHeight | calc/postfix.js:151-152 | the parenthesis loop's stopping height lies within the scope |
| ShuntingYard.PopHeightPops | calc/postfix.js:92-99 | the operator loop pops exactly the operators on top that bind at least as tightly as the incoming one and stops under one that binds more loosely |
| ShuntingYard.OpenHeightPops | calc/postfix.js:151-158 | the parenthesis loop pops exactly the operators above the topmost OPEN_PARENTHESIS, which stays (all of them when there is none) |
| ShuntingYard.CloseFunction | calc/postfix.js:177 | closing a function removes the innermost one and keeps scopes and flag; with none open nothing changes |
| ShuntingYard.CloseFunctionSink | calc/postfix.js:111-117 | a closed function becomes the last token of the enclosing sink, in the place where it was read |
| ShuntingYard.Finish | calc/postfix.js:184-199 | the end of the conversion fails exactly when other than one scope is left or the base scope holds an OPEN_PARENTHESIS; otherwise the output is the closed functions followed by the base scope from the top down |
| ShuntingYard.SpaceSkipped | calc/postfix.js:18-19 | a SPACE token leaves the converter unchanged |
| ShuntingYard.OperandToSink | calc/postfix.js:22-52 | an operand goes to the sink, followed by a SPACE separator exactly when the next token is neither operand nor DECIMAL; the coefficient flag is set exactly when the next token starts a factor (or it was set) |
| ShuntingYard.TrailingMinusFails | calc/postfix.js:58 | a `-` as the last token reads past the end of the input and fails |
| ShuntingYard.MinusBeforeOperand | calc/postfix.js:58-63 | a `-` before an operand is a sign: NEGATIVE goes to the sink and no operator is pushed |
| ShuntingYard.MinusBeforeFactor | calc/postfix.js:66-86 | a `-` before a function, constant, variable or `(` emits NEGATIVE, ONE, SPACE and pushes MULTIPLICATION; it fails exactly when no scope is left |
| ShuntingYard.OperatorPopsThenPushes | calc/postfix.js:90-102 | a binary operator pops the operators that bind at least as tightly to the sink in LIFO order, stops under a looser one, then is pushed |
| ShuntingYard.PopThenPush | calc/postfix.js:91-101 | the operator loop followed by the push, stated for any incoming operator |
| ShuntingYard.CoefficientApplied | calc/postfix.js:106-146 | a pending coefficient pushes MULTIPLICATION before the function, constant, variable or `(` that follows, and is cleared |
| ShuntingYard.FunctionOpenStep | calc/postfix.js:162-163 | FUNCTION_OPEN opens a fresh empty operator scope and changes nothing else |
| ShuntingYard.CloseParenthesisStep | calc/postfix.js:149-159 | CLOSE_PARENTHESIS pops the operators above the innermost marker to the sink in LIFO order and discards the marker (an empty scope stays empty) |
| ShuntingYard.FunctionCloseStep | calc/postfix.js:166-178 | FUNCTION_CLOSE pops the scope's operators into the function's arguments, closes the function into the enclosing sink and drops the scope |
| ShuntingYard.UnfoldFunctionClose | calc/postfix.js:166-178 | the FUNCTION_CLOSE branch is: drain to the marker, close the function, drop the innermost scope |
| ShuntingYard.DrainIntoFunction | calc/postfix.js:168-175 | with a function open, the parenthesis loop appends the popped operators to that function's arguments and leaves the output untouched |
| ShuntingYard.UnfoldOperand | calc/postfix.js:22-52 | the operand branch emits the operand, then the separator when one is due, updating the coefficient flag |
| ShuntingYard.UnfoldSign | calc/postfix.js:58-63 | the sign branch emits NEGATIVE and nothing else |
| ShuntingYard.UnfoldNegatedFactor | calc/postfix.js:66-86 | the multiply-by-minus-one branch emits NEGATIVE, ONE and SPACE, then pushes MULTIPLICATION |
| ShuntingYard.UnfoldBinary | calc/postfix.js:90-102 | the binary-operator branch is the operator loop followed by the push |
| ShuntingYard.UnfoldOpening | calc/postfix.js:105-146 | the function, constant/variable and `(` branches apply a pending coefficient first, then open the function, emit the token or push the marker |
| ShuntingYard.UnfoldClose | calc/postfix.js:149-159 | the `)` branch drains to the marker and pops it if the scope is not empty |
| ShuntingYard.PopOperators | calc/postfix.js:92-99 | the operator `while` loop computes exactly the specified pop |
| ShuntingYard.PopToOpen | calc/postfix.js:151-158 | the parenthesis `while` loop computes exactly the specified drain |
| ShuntingYard.OpenPopStep | calc/postfix.js:151-157 | one turn of the parenthesis loop sends the top entry, which is no OPEN_PARENTHESIS, to the sink, and the loop still stops at the same height |
| ShuntingYard.OpenPopDone | calc/postfix.js:151-152 | the loop condition fails exactly where the specified drain stops: at an empty scope or under an OPEN_PARENTHESIS |
| ShuntingYard.ConvertToken | calc/postfix.js:15-181 | the loop body returns exactly the specified step for each kind of token, and UnknownToken for any other |
| ShuntingYard.FinishConversion | calc/postfix.js:184-199 | the end of `infixToPostfix` computes exactly the specified finish |
| ShuntingYard.CloseOpenFunctions | calc/postfix.js:112-117 | the still-open functions end up in the output where they were read |
| ShuntingYard.DrainBase | calc/postfix.js:189-195 | draining the base scope fails with InvalidParenthesisFormat exactly when it holds an OPEN_PARENTHESIS, and otherwise appends it to the output from the top down |
| ShuntingYard.InfixToPostfix | calc/postfix.js:5-200 | the method (loop with invariant, then the final checks) returns exactly the conversion specification |
| PostfixOrder.LeavesAppend | calc/postfix.js:14-182 | the leaves of two concatenated outputs are the leaves of each in order |
| PostfixOrder.OperatorsHaveNoLeaves | calc/postfix.js:92-99 | a run of popped operators contributes no operand, constant, variable or function |
| PostfixOrder.SinkGrowth | calc/postfix.js:40-44 | growing the sink by `s` adds exactly the leaves of `s` to everything emitted so far |
| PostfixOrder.EmitLeaves | calc/postfix.js:40-44 | emitting one token adds exactly its leaves |
| PostfixOrder.PopToLeaves | calc/postfix.js:92-99 | popping operators adds no leaves and keeps the converter invariant |
| PostfixOrder.PopBindingLeaves | calc/postfix.js:92-99 | the operator loop adds no leaves and keeps the invariant |
| PostfixOrder.DrainToOpenLeaves | calc/postfix.js:151-158 | the parenthesis loop adds no leaves and keeps the invariant |
| PostfixOrder.PushKeepsScopesOk | calc/postfix.js:101 | pushing an operator or marker keeps the scopes made of operators and markers, and adds no leaves |
| PostfixOrder.CloseFunctionLeaves | calc/postfix.js:177 | closing a function moves its leaves nowhere |
| PostfixOrder.EmitConsistent | calc/postfix.js:40-44 | emitting keeps the invariant and adds the token's leaves |
| PostfixOrder.ApplyCoefficientConsistent | calc/postfix.js:106-109 | applying a pending coefficient keeps the invariant and the leaves |
| PostfixOrder.OperandLeaves | calc/postfix.js:40-52 | an operand with its separator adds only its own leaf |
| PostfixOrder.NegativeOneLeaves | calc/postfix.js:72-80 | the factor -1 adds the leaves NEGATIVE, ONE |
| PostfixOrder.PlainLeaf | calc/postfix.js:120-138 | a non-structural token without arguments is its own leaf |
| PostfixOrder.BinaryLeaves | calc/postfix.js:90-102 | a binary operator only moves operators |
| PostfixOrder.OpenFunctionLeaves | calc/postfix.js:111-117 | an opened function contributes itself first, its arguments after |
| PostfixOrder.CloseLeaves | calc/postfix.js:149-159 | `)` only moves operators and drops a marker |
| PostfixOrder.FunctionCloseLeaves | calc/postfix.js:166-178 | FUNCTION_CLOSE moves operators into the function and the function into the enclosing sink, losing no leaf |
| PostfixOrder.CloseFunctionConsistent | calc/postfix.js:177 | closing a function keeps the invariant |
| PostfixOrder.DropScopeConsistent | calc/postfix.js:178 | dropping the innermost scope keeps the invariant |
| PostfixOrder.OpeningLeaves | calc/postfix.js:105-146 | a function, constant, variable or `(` read after a pending coefficient adds exactly its own leaves |
| PostfixOrder.StepLeaves | calc/postfix.js:15-181 | every successful step keeps the invariant and adds exactly the token's contribution |
| PostfixOrder.SpaceStepLeaves | calc/postfix.js:18-19 | a SPACE contributes nothing |
| PostfixOrder.OperandStepLeaves | calc/postfix.js:22-52 | an operand contributes itself |
| PostfixOrder.OperatorStepLeaves | calc/postfix.js:55-102 | an operator contributes NEGATIVE as a sign, NEGATIVE ONE as a negated factor, nothing as a binary operator |
| PostfixOrder.OpeningStepLeaves | calc/postfix.js:105-146 | a function, constant, variable or `(` contributes its own leaves |
| PostfixOrder.DecimalStepLeaves | calc/postfix.js:133-138 | a DECIMAL contributes itself |
| PostfixOrder.CloseStepLeaves | calc/postfix.js:149-159 | `)` contributes nothing |
| PostfixOrder.FunctionOpenStepLeaves | calc/postfix.js:162-163 | FUNCTION_OPEN contributes nothing |
| PostfixOrder.FunctionCloseStepLeaves | calc/postfix.js:166-178 | FUNCTION_CLOSE contributes nothing |
| PostfixOrder.ConvertLeaves | calc/postfix.js:14-182 | the conversion loop keeps the invariant and adds the expected leaves of the rest of the input |
| PostfixOrder.ConvertStep | calc/postfix.js:14-182 | one turn of the loop moves one token's contribution from what is expected to what is emitted |
| PostfixOrder.ConvertUnfold | calc/postfix.js:14-182 | a successful loop takes a successful first step and continues from the next position |
| PostfixOrder.CloseAllLeaves | calc/postfix.js:112-117 | appending the still-open functions loses no leaves |
| PostfixOrder.InfixToPostfixKeepsOrder | calc/postfix.js:5-200 | a successful conversion keeps every operand, constant, variable and function in reading order (functions followed by their arguments), adds NEGATIVE for a sign and NEGATIVE ONE for a negated factor, and creates or loses nothing else |
| PostfixOrder.FinishLeaves | calc/postfix.js:184-199 | draining the base scope at the end adds no leaves |
| Condenser.RunEnd | calc/postfix.js:214-216 | the run that reaches `j - 1` ends at the first token from `j` on that is neither operand nor DECIMAL (or at the end of the stream) |
| Condenser.SpacesRemoved | calc/postfix.js:236-240 | the space-removal pass never lengthens the stream |
| Condenser.FuseRun | calc/postfix.js:210-228 | a run of operand, DECIMAL and leading NEGATIVE tokens that some other token follows becomes one OPERAND literal showing the run's glyphs and valued by `parseFloat` of them |
| Condenser.FuseTrailingRun | calc/postfix.js:214 | a run that reaches the end of the stream is left as it is, because the `i + 1 < tokens.length` guard skips the splice |
| Condenser.RunEndAt | calc/postfix.js:214-216 | the run end is the first non-continuing token |
| Condenser.FuseFunction | calc/postfix.js:230-231 | a function token keeps its place with its argument list condensed recursively |
| Condenser.FuseOther | calc/postfix.js:207-233 | every other token keeps its place |
| Condenser.Condense | calc/postfix.js:205-241 | the method (fusing loop with splices, then space-removal loop) leaves exactly the condensed stream specified by `Condensed` |
| Condenser.FuseRuns | calc/postfix.js:207-233 | the fusing loop computes exactly the fused stream, splicing each finished run out and its literal in |
| Condenser.Reading | calc/postfix.js:208-216 | the token the loop reads, and the next one, are those of the unread input |
| Condenser.ReadRunToken | calc/postfix.js:210-229 | reading a run token keeps the loop invariant and makes progress |
| Condenser.EndRun | calc/postfix.js:216-228 | ending a run splices in its literal and restarts `newDigit` empty, keeping the invariant |
| Condenser.SpliceStep | calc/postfix.js:217-227 | after the splice the stream is the output so far, the literal, then the input after the run |
| Condenser.ExtendStep | calc/postfix.js:212 | a run token that a continuing token follows (or that ends the stream) adds its glyph to `newDigit` |
| Condenser.FunctionStep | calc/postfix.js:230-231 | a function read with no run pending goes to the output with its argument condensed |
| Condenser.OtherStep | calc/postfix.js:207-233 | any other token read with no run pending goes to the output unchanged |
| Condenser.LoopDone | calc/postfix.js:207-233 | when the loop has read everything the stream is the fused stream |
| Condenser.SpliceLiteral | calc/postfix.js:217-226 | the `j`-times splice at the run's first index followed by the insertion replaces the run's tokens by the literal and keeps the rest |
| Condenser.RemoveSpaces | calc/postfix.js:236-240 | the space-removal loop computes exactly the specified pass |
| Condenser.DropSpace | calc/postfix.js:237-238 | a deleted SPACE lets the next token slide into its slot, where the loop passes it over |
| Condenser.DropLastSpace | calc/postfix.js:237-238 | a SPACE that ends the stream is deleted and the loop stops |
| Condenser.KeepToken | calc/postfix.js:236-240 | any other token is passed over |
| Condenser.RemoveDone | calc/postfix.js:236-240 | when the loop has passed everything the stream is the specified result |
| CondenserLaws.GlyphsSplit | calc/postfix.js:212 | the glyphs of a range are the glyphs of its two halves in order |
| CondenserLaws.GlyphsCons | calc/postfix.js:212 | the glyphs of a stream start with its first token's glyphs |
| CondenserLaws.FusedKeepsGlyphs | calc/postfix.js:207-233 | fusing keeps every glyph of the stream in order: a literal shows exactly the glyphs of the run it replaces |
| CondenserLaws.FusedShorter | calc/postfix.js:217-226 | fusing never lengthens the stream |
| CondenserLaws.TrailingRunNotFused | calc/postfix.js:214 | as written, the digits of `15` alone stay two digit tokens: a run that ends the stream is not fused |
| CondenserLaws.FusedAllFusesRuns | calc/postfix.js:202-204 | the intended pass leaves every top-level run token a literal holding the `parseFloat` value of what it shows |
| CondenserLaws.FusedAllAgrees | calc/postfix.js:207-233 | where no run ends the stream, the intended pass and the one as written agree |
| CondenserLaws.FusedAllKeepsGlyphs | calc/postfix.js:202-204 | the intended pass also keeps every glyph in order |
| CondenserLaws.NonSpaces | calc/postfix.js:235-240 | the tokens that are not SPACE, in order, contain no SPACE |
| CondenserLaws.NonSpacesCons | calc/postfix.js:235-240 | a stream's non-SPACE tokens start with its first token unless that is a SPACE |
| CondenserLaws.SpacesRemovedKeepsOthers | calc/postfix.js:236-240 | the space-removal pass deletes only SPACE tokens: every other token survives, in order |
| CondenserLaws.SpacesRemovedClears | calc/postfix.js:236-240 | when no two SPACE tokens are adjacent the pass removes them all |
| CondenserLaws.SecondSpaceSurvives | calc/postfix.js:237-238 | of two adjacent SPACE tokens the second slides into the freed slot, is passed over and survives |
| ExpressionTree.PopNode | calc/expression-tree.js:20-21 | `pop` on the node stack returns the top and the rest, or `undefined` on an empty stack |
| ExpressionTree.BuildTree | calc/expression-tree.js:9-27 | the method (loop over the postfix stream, recursing into function arguments) returns exactly the specified tree |
| ExpressionTree.FlatPush | calc/expression-tree.js:15-17 | pushing a tree adds its postfix order at the end of the stack's |
| ExpressionTree.StackSpells | calc/expression-tree.js:12-24 | without underflow the stack holds as many nodes as the arity count says, none of them `undefined`, and their postfix orders spell the tokens read so far |
| ExpressionTree.PushSpells | calc/expression-tree.js:14-17 | a non-operator token pushes one node that spells that token |
| ExpressionTree.CombineSpells | calc/expression-tree.js:18-23 | an operator pops the right operand, then the left, and pushes one node that spells the two in order followed by the operator |
| ExpressionTree.TreeSpellsPostfix | calc/expression-tree.js:9-27 | round trip: the tree built from well-formed postfix gives back that postfix in post-order, so an operator's left child holds the earlier operand |
| ExpressionTree.StackCountPush | calc/expression-tree.js:15-17 | pushing a tree adds its node count |
| ExpressionTree.TreeCountsTokens | calc/expression-tree.js:9-27 | every token at every depth of well-formed postfix makes exactly one node |
| ExpressionTree.StackCounts | calc/expression-tree.js:12-24 | building never loses or invents a node: an empty pop yields `undefined`, which holds none |
| ExpressionTree.CombineCounts | calc/expression-tree.js:19-22 | combining adds exactly the operator's node |
| ExpressionTree.UnderflowLeavesMissing | calc/expression-tree.js:20-21 | an operator with too few operands gets `undefined` children (`+` alone, `1 +`) |
| ExpressionTree.BoundValue | calc/expression-tree.js:74-80 | the binding loop for one variable node leaves the value of the last binding with its name, or the old value when there is none |
| ExpressionTree.BoundUnbound | calc/expression-tree.js:76-80 | a name with no binding keeps its value |
| ExpressionTree.BoundLast | calc/expression-tree.js:76-80 | the last binding of a name wins |
| ExpressionTree.AssignVariables | calc/expression-tree.js:68-90 | the recursive method returns exactly the specified assignment, left subtree before right |
| ExpressionTree.AssignedTouchesOnlyVariables | calc/expression-tree.js:68-90 | with bindings, assigning fails exactly on a tree with an `undefined` node; otherwise it changes only the values of variable nodes, each to its last binding |
| ExpressionTree.AssignedIdempotent | calc/expression-tree.js:68-90 | without bindings nothing changes; assigning twice is assigning once |
| ExpressionTree.BoundAgain | calc/expression-tree.js:76-80 | binding again with the same list keeps the value the first binding gave |
| ExpressionTree.SameButValuesKeepsNil | calc/expression-tree.js:83-89 | assigning keeps every `null` child where it was |
| ExpressionTree.PrimOf | calc/function.js:1-59 | the `mathFunctions` table: the five two-argument entries have no one-argument primitive and every function entry has one; `tanh` calls `Math.cosh` (41-43), so no entry reaches `Math.tanh` |
| ExpressionTree.Binary | calc/function.js:1-16 | `token.math(a, b)` fails only for a token with no `math`; a real result needs a real left operand, and for the two-argument entries a real right one too; `x / 0` is not real |
| ExpressionTree.Unary | calc/function.js:17-58 | `token.math(a)` fails only for a token with no `math`; its result is real exactly when the entry is a one-argument primitive and `a` is real (a two-argument entry gets `undefined` for `y` and gives NaN) |
| ExpressionTree.OneArgumentEntry | calc/function.js:17-58 | a one-argument entry ignores a second argument: called with two it gives what it gives with one |
| ExpressionTree.SolveRec | calc/expression-tree.js:35-66 | `solveRec` returns a value only at a node; an operator or function whose left child is the `undefined` of an empty pop throws |
| ExpressionTree.Solve | calc/expression-tree.js:29-32 | without a variable list `assignVariables` changes nothing, so `solve` is `solveRec` on the tree as given |
| ExpressionTree.SolveIgnoresUnusedX | calc/expression-tree.js:35-66 | the value of `x` matters only through variable nodes named `x` |
| ExpressionTree.StrayTokenThrows | calc/expression-tree.js:65 | a node that is no operand, constant, variable, operator or function throws, also as an operator's left operand |
| ExpressionTree.ThreeTokenTree | calc/expression-tree.js:12-24 | two leaves and an operator build one operator node with the earlier leaf on the left |
| ExpressionTree.SolveOrder | calc/expression-tree.js:56-59 | `1 2 -` evaluates to -1: the earlier operand is the left one |
| ExpressionTree.SolveX | calc/expression-tree.js:40-46 | the variable `x` reads the supplied value (`x 2 *` at 3 is 6) |
| ExpressionTree.SolveUnboundX | calc/expression-tree.js:41-44 | without a supplied value the variable `x` throws |
| ExpressionTree.OneTokenTree | calc/expression-tree.js:12-26 | a stream of one leaf token builds that token's leaf |
| ExpressionTree.XLeaf | calc/expression-tree.js:40-46 | a leaf for the variable `x` reads the supplied value, or throws when there is none |
| ExpressionTree.SolveBinding | calc/expression-tree.js:29-32 | any other variable reads its last binding |
| ExpressionTree.PopAgrees | calc/expression-tree.js:20-21 | popping a node stack and the value stack that agrees with it gives agreeing tops and rests; the `undefined` of an empty node stack evaluates to the error of an empty value stack |
| ExpressionTree.AgreePush | calc/expression-tree.js:15 | pushing a node whose value is `v` keeps node stack and value stack in step |
| ExpressionTree.CombineAgrees | calc/expression-tree.js:18-22 | an operator keeps the two stacks in step: its node evaluates to the operator applied to the popped values, left error first |
| ExpressionTree.LeafAgrees | calc/expression-tree.js:14-15 | a leaf keeps the two stacks in step |
| ExpressionTree.StackAgrees | calc/expression-tree.js:12-24 | after every token of a function-free stream, underflow included, the node stack of `buildTree` and the value stack agree entry by entry |
| ExpressionTree.SolvedEvaluatesPostfix | calc/expression-tree.js:35-66 | on function-free postfix, `solveRec` of the tree `buildTree` makes is the value of the stream evaluated on a stack of values, error for error |
| ExpressionTree.ValuesDefined | calc/expression-tree.js:56-59 | on postfix where every operator finds two operands, the value stack has the height the arity count says and holds no error of an `undefined` node |
| ExpressionTree.LeafNotMissing | calc/expression-tree.js:36-53 | a leaf never evaluates to the error of an `undefined` node |
| ExpressionTree.PushDefined | calc/expression-tree.js:15 | pushing a value that is not that error keeps the stack free of it |
| ExpressionTree.CombineDefined | calc/expression-tree.js:56-59 | an operator over two values that are not that error gives none either |
| ExpressionTree.BalancedHasNoMissing | calc/expression-tree.js:35-66 | well-formed function-free postfix never throws for an `undefined` node: that error comes only from an operator with too few operands |
| Numeric.DigitValue | calc/lexer.js:17-18 | a decimal digit character has a value from 0 to 9 (`parseInt` / `Character.getNumericValue`) |
| Numeric.DigitGlyph | calc/token.js:51-60 | the glyph of a digit 0..9 is a digit character whose value is that digit |
| Numeric.DigitPrefix | calc/postfix.js:226 | the longest all-digit prefix: digits up to its end and a non-digit right after it |
| Numeric.DigitsEnd | calc/postfix.js:226 | the digit run from `j` ends at the first non-digit |
| Numeric.DigitsEndAt | calc/postfix.js:226 | the end of the digit run is the first non-digit |
| Numeric.IntValueDigits | calc/postfix.js:226 | the integer the scanner accumulates is the value of the digit string |
| Numeric.FracValueDigits | calc/postfix.js:226 | the fraction the scanner accumulates is the value `0.d1d2...` of the digit string |
| Numeric.WholeFromDigits | src/tree/ExpressionTree.java:403 | `Double.parseDouble` of a digit string is the integer it spells |
| Numeric.FractionFromDigits | src/tree/ExpressionTree.java:403 | `Double.parseDouble` reads the digits after the point as the fraction they spell |
| Numeric.DigitPrefixOfDigits | calc/postfix.js:226 | the digit prefix of digits followed by a non-digit is exactly the digits |
| Numeric.ParseDigits | calc/postfix.js:226 | a run of digits parses, under both `parseFloat` and `Double.parseDouble`, to the integer it spells |
| Numeric.ParseDecimal | calc/postfix.js:226 | digits, a point and digits parse in both hosts to the decimal they spell; `parseFloat` also honours a leading minus |
| Numeric.PointCharsConcat | calc/postfix.js:226 | digits, a point and digits hold only digits and points, and do not start with a minus |
| Numeric.DecimalShape | calc/postfix.js:226 | in `a.b` the digit prefix is `a`, followed by the point and then `b` |
| Numeric.ParseFloatDecimal | calc/postfix.js:226 | `parseFloat("a.b")` is the decimal `a.b` |
| Numeric.ParseDoubleDecimal | src/tree/ExpressionTree.java:403 | `Double.parseDouble("a.b")` is the decimal `a.b` |
| Numeric.WholeFromPrefix | src/tree/ExpressionTree.java:403 | reading the leading digits of a string accumulates their value |
| Numeric.ParseFloatMinus | calc/postfix.js:226 | a leading minus sign negates what `parseFloat` reads after it |
| Numeric.UnsignedShift | calc/postfix.js:226 | the unsigned scan reads the same behind one more leading character |
| Numeric.IntValueShift | calc/postfix.js:226 | the integer scan reads the same behind one more leading character |
| Numeric.FracValueShift | calc/postfix.js:226 | the fraction scan reads the same behind one more leading character |
| JavaTypes.DigitTypesAreTableValues | src/tree/ExpressionTree.java:30-41 | the digit test is exactly membership among the digit map's values |
| JavaTypes.OperatorTypesAreTableValues | src/tree/ExpressionTree.java:65-71 | the operator test is exactly membership among the operator map's values |
| JavaTypes.DigitType | src/tree/ExpressionTree.java:315-316 | a digit character maps to a digit type, the digit map's entry for its value |
| JavaTypes.Precedence | src/tree/ExpressionTree.java:422-434 | `precedence` is 1, 2 or 3 exactly for the five operator types and -1 for every other type |
| JavaTypes.PrecedenceTable | src/tree/ExpressionTree.java:422-434 | + and - bind at 1, * and / at 2, ^ at 3, an open parenthesis and a variable at -1, and every operator-map type binds |
| JavaTypes.FunctionNames | src/tree/ExpressionTree.java:46-60 | every function name has two to four letters and a function type, none begins with `p`, and `ln` is the only two-letter name |
| JavaTypes.BindingHeight | src/tree/ExpressionTree.java:361-365 | the operator loop pops exactly the top entries that bind at least as tightly and stops under one that binds more loosely |
| JavaTypes.OpenHeight | src/tree/ExpressionTree.java:333-341 | the close-parenthesis loop pops exactly the entries above the topmost open parenthesis |
| JavaTypes.PopStep | src/tree/ExpressionTree.java:363-364 | popping the next entry appends it to what was popped |
| JavaTypes.PopBinding | src/tree/ExpressionTree.java:361-365 | the operator loop appends the popped entries from the top down and leaves the stack cut at the binding height |
| JavaTypes.DrainStack | src/tree/ExpressionTree.java:370-375 | the final loop fails with InvalidExpressionFormat exactly when the stack holds an open parenthesis, and otherwise appends the stack from the top down |
| JavaParse.DigitToken | src/tree/ExpressionTree.java:315-317 | a digit character becomes a digit-type token showing that one character |
| JavaParse.FunctionToken | src/tree/ExpressionTree.java:299 | a function name becomes a function-type token showing the name |
| JavaParse.OperatorToken | src/tree/ExpressionTree.java:360-366 | an operator glyph becomes an operator-type token showing that glyph |
| JavaParse.Shared | src/tree/ExpressionTree.java:259-299 | every function token holds the one shared `sublist` as its `partial`, so each sees everything added to it by the end of the scan; other tokens are unchanged |
| JavaParse.NameLength | src/tree/ExpressionTree.java:286-296 | the name lookup returns a length from `j` to 4 whose substring is a function name |
| JavaParse.NameTurn | src/tree/ExpressionTree.java:282-301 | the function branch always moves the scan forward and stays within the string |
| JavaParse.Step | src/tree/ExpressionTree.java:263-368 | every successful turn of the scan loop moves forward and stays within the string |
| JavaParse.SymbolStep | src/tree/ExpressionTree.java:328-367 | the `)`, `.`, `e` and operator branches consume exactly one character |
| JavaParse.RunStep | src/tree/ExpressionTree.java:263-368 | a successful turn leaves the rest of the scan as it was |
| JavaParse.RunThrows | src/tree/ExpressionTree.java:263-368 | a turn that throws ends `parseInfix` with that exception |
| JavaParse.NameLengthFrom | src/tree/ExpressionTree.java:289-296 | the lookup from `j` returns `n` exactly when `n` is the first length from `j` to 4 that names a function |
| JavaParse.NameLengthFirstHit | src/tree/ExpressionTree.java:286-296 | the function branch reads the SHORTEST name at `i`, so `sinh` is read as `sin` |
| JavaParse.LookupFromP | src/tree/ExpressionTree.java:282-296 | no function name starts with `p`, so the lookup from a `p` throws |
| JavaParse.PiRejected | src/tree/ExpressionTree.java:354-356 | the `pi` branch is unreachable: a `p` is a letter that enters the function branch first, and the scan throws |
| JavaParse.UnknownCharacter | src/tree/ExpressionTree.java:358-367 | a character with no branch and no operator entry throws |
| JavaParse.StepDigit | src/tree/ExpressionTree.java:304-325 | a digit continues the scan with the digit branch |
| JavaParse.StepVariable | src/tree/ExpressionTree.java:271-279 | `x` continues the scan with the variable branch |
| JavaParse.StepSymbol | src/tree/ExpressionTree.java:332-367 | the remaining characters continue (or end) the scan as their branch says |
| JavaParse.StepOpen | src/tree/ExpressionTree.java:328-329 | `(` pushes an open parenthesis and changes nothing else |
| JavaParse.CoefficientExample | src/tree/ExpressionTree.java:306-309 | `2x` parses to `2 x *`: a digit before `x` is a coefficient |
| JavaParse.DrainMultiply | src/tree/ExpressionTree.java:370-377 | a scan that ends with only the implicit `*` on the stack appends it to the output |
| JavaParse.UnclosedExample | src/tree/ExpressionTree.java:371-373 | `(1` throws Invalid Expression Format |
| JavaParse.UnopenedExample | src/tree/ExpressionTree.java:342 | `1)` pops an empty stack and throws |
| JavaParse.GlyphsAppend | src/tree/ExpressionTree.java:317-324 | joining two lists of one-glyph tokens keeps one glyph per number token |
| JavaParse.PoppedMarkers | src/tree/ExpressionTree.java:333-341 | what is popped off the stack is parentheses and operators only |
| JavaParse.DigitKeepsGlyphs | src/tree/ExpressionTree.java:304-325 | the digit branch keeps one glyph per number token |
| JavaParse.CloseKeepsGlyphs | src/tree/ExpressionTree.java:332-344 | the `)` branch keeps one glyph per number token |
| JavaParse.OperatorKeepsGlyphs | src/tree/ExpressionTree.java:359-367 | the operator branch keeps one glyph per number token |
| JavaParse.PushMarker | src/tree/ExpressionTree.java:366 | pushing an operator keeps the stack made of markers |
| JavaParse.NameKeepsGlyphs | src/tree/ExpressionTree.java:282-301 | the function branch keeps one glyph per number token |
| JavaParse.StepKeepsGlyphs | src/tree/ExpressionTree.java:263-368 | every turn keeps one glyph per number token and a stack of markers |
| JavaParse.RunKeepsGlyphs | src/tree/ExpressionTree.java:263-377 | a successful scan returns one glyph per number token, in the output and in every function's argument list |
| JavaParse.ParsedOneGlyph | src/tree/ExpressionTree.java:256-378 | `parseInfix` makes one token per digit and decimal point, which is what the splice arithmetic of `concatenateExpression` relies on |
| JavaParse.LookupName | src/tree/ExpressionTree.java:286-296 | the lookup loop computes exactly the specified lookup from two characters |
| JavaParse.PopToOpen | src/tree/ExpressionTree.java:333-341 | the close-parenthesis loop pops down to the topmost open parenthesis, appending the popped entries to the output and, inside a function's parentheses, to the sublist |
| JavaParse.ReadName | src/tree/ExpressionTree.java:282-301 | the function branch computes exactly the specified turn |
| JavaParse.ReadDigit | src/tree/ExpressionTree.java:304-325 | the digit branch computes exactly the specified turn |
| JavaParse.ReadClose | src/tree/ExpressionTree.java:332-344 | the `)` branch computes exactly the specified turn |
| JavaParse.ReadOperator | src/tree/ExpressionTree.java:359-367 | the operator branch computes exactly the specified turn |
| JavaParse.ScanChar | src/tree/ExpressionTree.java:264-367 | one turn of the loop computes exactly the specified step |
| JavaParse.ScanSymbol | src/tree/ExpressionTree.java:328-367 | the turns for the remaining characters compute exactly the specified step |
| JavaParse.ParseInfix | src/tree/ExpressionTree.java:256-378 | the method returns exactly what `parseInfix` returns or throws |
| JavaConcat.Literal | src/tree/ExpressionTree.java:403 | a fused literal is an OPERAND showing its digits, or a NumberFormatException when `Double.parseDouble` rejects them (two decimal points, say) |
| JavaConcat.FuseAt | src/tree/ExpressionTree.java:396-404 | the splice at the end of a run removes `newDigit.length()` tokens and inserts one OPERAND showing the digits at the run's first index; it throws when the removals leave the list or the literal does not parse |
| JavaConcat.SpacesRemoved | src/tree/ExpressionTree.java:410-413 | the space loop never lengthens the list |
| JavaConcat.GlyphsOfRun | src/tree/ExpressionTree.java:392 | on one-glyph tokens a run's glyphs are as many as its tokens |
| JavaConcat.RunEnd | src/tree/ExpressionTree.java:395 | the run that starts at `j` ends at the first token that is neither operand nor DECIMAL |
| JavaConcat.RunEndAt | src/tree/ExpressionTree.java:395 | the run end is the first non-run token |
| JavaConcat.Prefixed | src/tree/ExpressionTree.java:388-407 | putting tokens in front keeps an error as it is and prefixes a result |
| JavaConcat.Tail | src/tree/ExpressionTree.java:388-407 | the unread part of the list, built token by token, has the expected length |
| JavaConcat.FuseAgrees | src/tree/ExpressionTree.java:388-407 | the index loop with its in-place splices, run on the output so far followed by the unread tokens, reads the list run by run |
| JavaConcat.FuseTrailing | src/tree/ExpressionTree.java:395 | a run that reaches the end of the list makes `tokens.get(i + 1)` throw IndexOutOfBounds |
| JavaConcat.FuseStep | src/tree/ExpressionTree.java:391-392 | inside a run the loop only accumulates the glyph |
| JavaConcat.FuseContinue | src/tree/ExpressionTree.java:388-407 | inside a run the loop goes on to the run's next token |
| JavaConcat.FuseOther | src/tree/ExpressionTree.java:388-407 | a token outside every run goes to the output as it is |
| JavaConcat.FuseFromOther | src/tree/ExpressionTree.java:391 | the loop passes over a token outside every run |
| JavaConcat.FusedOther | src/tree/ExpressionTree.java:388-407 | the run-by-run reading keeps a token outside every run |
| JavaConcat.FuseFromAtEnd | src/tree/ExpressionTree.java:395-405 | at the last token of a run that another token follows, the loop fuses |
| JavaConcat.FuseTailSplice | src/tree/ExpressionTree.java:396-404 | a fuse whose literal parses continues after the new OPERAND with `newDigit` empty |
| JavaConcat.FuseEndSplice | src/tree/ExpressionTree.java:396-404 | the end of a run whose literal parses leaves the OPERAND in the run's place |
| JavaConcat.FuseEndFails | src/tree/ExpressionTree.java:403 | the end of a run whose literal does not parse throws NumberFormatException |
| JavaConcat.FusedRun | src/tree/ExpressionTree.java:395-405 | a run that another token follows becomes its literal, or throws when the literal does not parse |
| JavaConcat.SpliceRun | src/tree/ExpressionTree.java:396-403 | splicing the literal over the run leaves the output, the literal, then the tokens after the run |
| JavaConcat.FuseRunEndOk | src/tree/ExpressionTree.java:395-405 | the loop at a run's end, when the literal parses, continues after the literal |
| JavaConcat.FuseEndErr | src/tree/ExpressionTree.java:403 | at the end of a run whose literal does not parse, the loop throws NumberFormatException exactly as the run-by-run reading does |
| JavaConcat.FuseEnd | src/tree/ExpressionTree.java:395-405 | the last token of a run that another token follows turns the run into one OPERAND |
| JavaConcat.FuseFromIsFused | src/tree/ExpressionTree.java:388-407 | on the tokens `parseInfix` makes, the index loop with splices computes the run-by-run reading |
| JavaConcat.Others | src/tree/ExpressionTree.java:391 | the tokens outside every run, in order, hold no run token |
| JavaConcat.OthersOfRun | src/tree/ExpressionTree.java:391 | a run holds no token outside every run |
| JavaConcat.FusedKeepsOthers | src/tree/ExpressionTree.java:388-407 | the fusing pass keeps every token outside the runs, in order |
| JavaConcat.FusedHead | src/tree/ExpressionTree.java:388-407 | a non-run token heads the reading from its index |
| JavaConcat.FusedIsCondensed | src/tree/ExpressionTree.java:387 | after the fusing pass every number token is an OPERAND that a non-number token follows: no multi-digit number is left in pieces |
| JavaConcat.TrailingRunThrows | src/tree/ExpressionTree.java:395 | a list whose last token is a number token makes the pass throw |
| JavaConcat.NoRunsUnchanged | src/tree/ExpressionTree.java:388-407 | a list with no number token passes through unchanged |
| JavaConcat.NonSpaces | src/tree/ExpressionTree.java:409-413 | the tokens other than SPACE, in order, hold no SPACE |
| JavaConcat.NonSpacesConcat | src/tree/ExpressionTree.java:409-413 | the non-SPACE tokens of a concatenation are those of each part in order |
| JavaConcat.SpacesRemovedKeepsOthers | src/tree/ExpressionTree.java:410-413 | the space loop removes SPACE tokens only and keeps the others in order |
| JavaConcat.SpaceDropped | src/tree/ExpressionTree.java:411-412 | removing a SPACE that a non-SPACE follows keeps the spaces apart after it |
| JavaConcat.NonSpacesAfterSpace | src/tree/ExpressionTree.java:411-412 | after a removed SPACE the token that slid into its slot is kept |
| JavaConcat.NonSpaceKept | src/tree/ExpressionTree.java:410-413 | a non-SPACE token is passed over and kept |
| JavaConcat.SpacesApartRemoved | src/tree/ExpressionTree.java:410-413 | where no two SPACE tokens are side by side the pass removes all of them |
| JavaConcat.AdjacentSpaceSurvives | src/tree/ExpressionTree.java:411-412 | of two SPACE tokens side by side the second slides into the freed slot, is passed over and survives |
| JavaConcat.SpliceLiteral | src/tree/ExpressionTree.java:396-404 | the removal loop and the insertion compute exactly the specified splice |
| JavaConcat.FuseRuns | src/tree/ExpressionTree.java:388-407 | the fusing loop computes exactly the specified pass |
| JavaConcat.RemoveSpaces | src/tree/ExpressionTree.java:410-413 | the space loop computes exactly the specified pass |
| JavaConcat.ConcatenateExpression | src/tree/ExpressionTree.java:385-414 | the method leaves exactly the specified list, or throws the specified exception |
| JavaEval.BuildTree | src/tree/ExpressionTree.java:442-461 | the method (loop over the list with a node stack, recursing into a function's `partial` and skipping `partial.size()` tokens) returns exactly the specified tree or exception |
| JavaEval.BuiltFromSpells | src/tree/ExpressionTree.java:445-460 | on a function-free list every node stack the loop reaches spells the tokens read so far, so the tree returned spells a suffix of the list in postfix order |
| JavaEval.SuffixOf | src/tree/ExpressionTree.java:460 | the top tree of a stack that spells the list spells a suffix of it |
| JavaEval.BuiltSpells | src/tree/ExpressionTree.java:442-461 | `buildTree` on a function-free list returns a tree that spells the end of the list in postfix order: a left child holds earlier tokens than its right sibling |
| JavaEval.BuiltFromReadsRest | src/tree/ExpressionTree.java:445-458 | the loop from `i` reads only the tokens from `i` on |
| JavaEval.FunctionSkipsItsArgument | src/tree/ExpressionTree.java:449-451 | a function token is built from its own `partial` list, the `partial.size()` tokens after it are skipped unread whatever they are, and an exception in the argument is the exception of the whole |
| JavaEval.PrimOf | src/tree/ExpressionTree.java:76-95 | the `evaluateMap` entry of a function type: `TAN` calls `Math.sin`, so no entry reaches `Math.tan`, and none reaches `Math.abs` (the Java version has no absolute value) |
| JavaEval.Solved | src/tree/ExpressionTree.java:225-247 | `solveRec` returns a value only at a node; an operator or function whose left child is `null` throws a null dereference |
| JavaEval.Apply2 | src/tree/ExpressionTree.java:77-81 | an operator's result is defined only when both operands are |
| JavaEval.TanIsSine | src/tree/ExpressionTree.java:84 | a tangent node evaluates as a sine node would, because TAN maps to `Math.sin` |
| JavaEval.ConstantsThrow | src/tree/ExpressionTree.java:225-247 | PI and E carry values but are no operands, so evaluating them throws |
| JavaEval.SolveOrder | src/tree/ExpressionTree.java:229-240 | a function node reads only its left child; an operator evaluates its left child first, so the left child's exception is the one thrown |
| JavaEval.BuiltAgrees | src/tree/ExpressionTree.java:442-461 | building a tree and evaluating it agrees with evaluating the postfix list directly on a value stack, exception for exception |
| JavaEval.AgreePush | src/tree/ExpressionTree.java:448 | pushing a node whose value is `v` keeps node stack and value stack in step |
| JavaEval.BuiltEvaluatesPostfix | src/tree/ExpressionTree.java:225-247 | on function-free postfix, evaluating the tree is evaluating the postfix list; both fail exactly when an operator finds too few operands (EmptyStackException) |
| JavaEval.PostfixErrors | src/tree/ExpressionTree.java:454-460 | the only exception of the postfix evaluation is an empty stack |
| JavaEval.PassesRepeat | src/tree/ExpressionTree.java:204-208 | the constructor's loop runs `concatenateExpression` once per function token over the one list they all share |
| JavaEval.Construct | src/tree/ExpressionTree.java:199-211 | the constructor (parse, fuse, one fuse of the shared list per function token, build) returns exactly the specified tree or exception |
| JavaEval.FirstPassFuses | src/tree/ExpressionTree.java:204-208 | the shared argument list of `sin(2)+cos(3)` fuses to the operands 2 and 3 on the first pass |
| JavaEval.FuseTwoFirst | src/tree/ExpressionTree.java:395-404 | that first pass fuses `2` first |
| JavaEval.FuseTwoSecond | src/tree/ExpressionTree.java:395-404 | and then `3` |
| JavaEval.SecondPassThrows | src/tree/ExpressionTree.java:204-208 | a second pass over the same list reads the two operands as one run that reaches the end of the list, and throws IndexOutOfBounds |
| JavaLegacy.DigitToken | src/ExpressionTree.java:178-179 | a digit character becomes a digit-type token that shows the character and carries no value |
| JavaLegacy.NameLength | src/ExpressionTree.java:151-162 | the lookup returns a length whose substring is a function name |
| JavaLegacy.NameTurn | src/ExpressionTree.java:149-163 | the function branch moves the scan forward and stays within the string |
| JavaLegacy.NullToken | src/ExpressionTree.java:201-208 | the token of a character with no operator entry has the `null` type, is no operator and shows the character |
| JavaLegacy.Step | src/ExpressionTree.java:133-210 | every successful turn of the scan loop moves forward and stays within the string; an unknown character goes to the operator branch |
| JavaLegacy.RunStep | src/ExpressionTree.java:133-210 | a successful turn leaves the rest of the scan as it was |
| JavaLegacy.RunThrows | src/ExpressionTree.java:133-210 | a turn that throws ends `parseInfix` with that exception |
| JavaLegacy.NameLengthThreeThenFour | src/ExpressionTree.java:151-162 | the lookup returns 3 when the next three characters name a function, and 4 only when they do not and the next four do; nothing else |
| JavaLegacy.NameInitials | src/ExpressionTree.java:27-41 | every name but `ln` has at least three letters, `ln` is the only name starting `ln`, and no name starts with `e` or `p` |
| JavaLegacy.NotAName | src/ExpressionTree.java:27-41 | three or four characters starting `ln`, `e` or `p` name no function |
| JavaLegacy.LnNeverFound | src/ExpressionTree.java:151-159 | the two-letter key `ln` is never found, because only three and four characters are looked up: `ln` always throws |
| JavaLegacy.HyperbolicShadowed | src/ExpressionTree.java:151-155 | `sinh`, `cosh` and `tanh` are read as `sin`, `cos` and `tan`, since the three-character lookup comes first |
| JavaLegacy.ConstantsRejected | src/ExpressionTree.java:149-159 | `e` and `p` enter the function branch and start no name, so the constants `e` and `pi` are rejected |
| JavaLegacy.NoNameAt | src/ExpressionTree.java:151-159 | the lookup from `e` or `p` throws |
| JavaLegacy.StepLetter | src/ExpressionTree.java:149 | every letter other than `x` enters the function branch |
| JavaLegacy.OperatorGlyphs | src/ExpressionTree.java:43-49 | the operator table holds exactly `+ - * / ^` |
| JavaLegacy.UnknownCharacter | src/ExpressionTree.java:201-209 | a character with no branch and no operator entry is pushed as a `null`-typed token on an empty stack, and throws in `precedence` on any other stack |
| JavaLegacy.StepDigit | src/ExpressionTree.java:166-181 | a digit continues the scan with the digit branch |
| JavaLegacy.StepVariable | src/ExpressionTree.java:141-146 | `x` continues the scan with the variable branch |
| JavaLegacy.StepOpen | src/ExpressionTree.java:184-185 | `(` pushes an open parenthesis and changes nothing else |
| JavaLegacy.StepClose | src/ExpressionTree.java:188-194 | `)` continues with the close branch or throws its exception |
| JavaLegacy.StepOperator | src/ExpressionTree.java:201-209 | an operator glyph continues the scan with the operator branch, or throws where that branch throws |
| JavaLegacy.OperatorOnEmpty | src/ExpressionTree.java:201-209 | on an empty stack an operator is only pushed |
| JavaLegacy.OperatorOnNull | src/ExpressionTree.java:201-209 | an operator that reaches a `null`-typed entry throws in `precedence` |
| JavaLegacy.UnknownAloneExample | src/ExpressionTree.java:117-120 | `#` parses to its `null`-typed token, builds that token's leaf, and `toString` shows `#` |
| JavaLegacy.NullAloneDrained | src/ExpressionTree.java:212-217 | a stack holding only a `null`-typed token drains to that token |
| JavaLegacy.NullAloneTree | src/ExpressionTree.java:228-270 | a lone `null`-typed token builds its own leaf and shows its character |
| JavaLegacy.UnknownOperandExample | src/ExpressionTree.java:201-209 | `1+#` throws at the `#`, which is read over a non-empty stack |
| JavaLegacy.UnknownFirstExample | src/ExpressionTree.java:201-209 | `#+1` pushes the `null`-typed token and throws at the `+` that reaches it |
| JavaLegacy.UnknownCloseExample | src/ExpressionTree.java:188-194 | `#)` pushes the `null`-typed token, the `)` moves it to the output and then pops an empty stack |
| JavaLegacy.UnknownOpenExample | src/ExpressionTree.java:212-217 | `#(` leaves an open parenthesis over the `null`-typed token and throws Invalid Expression Format |
| JavaLegacy.UnknownNameExample | src/ExpressionTree.java:149-153 | `#ab` pushes the `null`-typed token, then the name lookup at `a` reads past the end of the string |
| JavaLegacy.CoefficientExample | src/ExpressionTree.java:168-171 | `2x` parses to `2 x *` |
| JavaLegacy.SeparatorExample | src/ExpressionTree.java:172-181 | `1+2` parses to `1 SPACE 2 +`: a separator follows a digit that a non-digit follows |
| JavaLegacy.UnclosedExample | src/ExpressionTree.java:213-216 | `(1` throws Invalid Expression Format |
| JavaLegacy.UnopenedExample | src/ExpressionTree.java:194 | `1)` pops an empty stack and throws |
| JavaLegacy.PopClean | src/ExpressionTree.java:189-193 | popping operators above an open parenthesis moves no parenthesis to the output |
| JavaLegacy.OperatorClean | src/ExpressionTree.java:201-209 | a successful operator branch keeps the output free of parentheses |
| JavaLegacy.CloseClean | src/ExpressionTree.java:188-194 | the `)` branch keeps the output free of parentheses |
| JavaLegacy.StepClean | src/ExpressionTree.java:133-210 | every turn keeps the output free of parentheses and the stack free of `)` |
| JavaLegacy.RunClean | src/ExpressionTree.java:133-219 | a successful scan from a clean state returns no parenthesis |
| JavaLegacy.ParsedHasNoParentheses | src/ExpressionTree.java:128-220 | every parenthesis is consumed: a `)` pops its `(` and a `(` left at the end throws, so the postfix list holds none |
| JavaLegacy.LookupName | src/ExpressionTree.java:151-162 | the three-then-four lookup computes exactly the specified lookup |
| JavaLegacy.ReadDigit | src/ExpressionTree.java:166-181 | the digit branch computes exactly the specified turn |
| JavaLegacy.ReadClose | src/ExpressionTree.java:188-194 | the `)` branch computes exactly the specified turn |
| JavaLegacy.ReadOperator | src/ExpressionTree.java:201-209 | the operator branch computes exactly the specified turn, the throw on a `null`-typed entry included |
| JavaLegacy.ScanChar | src/ExpressionTree.java:134-209 | one turn of the loop computes exactly the specified step, the push of a `null`-typed token included |
| JavaLegacy.ParseInfix | src/ExpressionTree.java:128-220 | the method returns exactly what `parseInfix` returns or throws |
| JavaLegacy.PopNoNull | src/ExpressionTree.java:189-207 | popping entries above the bottom one moves no `null`-typed token to the output |
| JavaLegacy.OperatorNullAtBottom | src/ExpressionTree.java:201-209 | a successful operator branch keeps any `null`-typed token at the bottom of the stack and out of the output |
| JavaLegacy.CloseNullAtBottom | src/ExpressionTree.java:188-194 | a successful `)` branch keeps any `null`-typed token at the bottom of the stack and out of the output |
| JavaLegacy.PushNullAtBottom | src/ExpressionTree.java:184-185 | pushing any other token keeps the `null`-typed one at the bottom |
| JavaLegacy.StepNullAtBottom | src/ExpressionTree.java:133-210 | every successful turn keeps the `null`-typed token at the bottom of the stack and out of the output |
| JavaLegacy.RunNullLast | src/ExpressionTree.java:133-217 | a successful scan puts a `null`-typed token, if any, last |
| JavaLegacy.ParsedNullLast | src/ExpressionTree.java:128-220 | in what `parseInfix` returns, no token before the last has the `null` type |
| JavaLegacy.BuildTree | src/ExpressionTree.java:228-240 | the method returns exactly the specified tree or exception |
| JavaLegacy.BuiltFromShaped | src/ExpressionTree.java:230-238 | from stacks of well-shaped trees the loop builds a well-shaped tree |
| JavaLegacy.BuiltShaped | src/ExpressionTree.java:228-240 | operators get two children and every other token, a function or a digit of a longer number included, is a childless leaf |
| JavaLegacy.BuiltFromSpells | src/ExpressionTree.java:230-239 | every node stack the loop reaches spells the tokens read so far |
| JavaLegacy.BuiltSpells | src/ExpressionTree.java:228-240 | the tree returned spells the end of the list in postfix order |
| JavaLegacy.BuiltFromLastLeaf | src/ExpressionTree.java:228-240 | from any index, a list that ends in a non-operator builds that token's leaf, or throws |
| JavaLegacy.BuiltLastLeaf | src/ExpressionTree.java:228-240 | the final `pop` returns only the top node, so a list that ends in a non-operator builds that token's leaf alone |
| JavaLegacy.NullTokenIsTheTree | src/ExpressionTree.java:117-120 | a `null`-typed token in a successful parse is the last token, and a tree built from that parse is its leaf alone |
| JavaLegacy.BuildUnderflow | src/ExpressionTree.java:234-239 | an empty list, or an operator with fewer than two nodes below it, pops an empty stack |
| JavaLegacy.ToString | src/ExpressionTree.java:263-270 | `toString` concatenates the glyphs of the postfix tokens in order |
| JavaLegacy.ShownAppend | src/ExpressionTree.java:265-267 | the glyphs of two lists are those of each in order |
| JavaLegacy.ShownSingles | src/ExpressionTree.java:263-270 | a list of one-glyph tokens shows one character per token, in order |
| ArrayShift.ShiftAndDelete | gui/util.js:17-26 | the loop fills a fresh array of the old length exactly as `Shifted` says: each element lands `amount` places on when that index is inside the array |
| ArrayShift.ShiftedMoves | gui/util.js:17-26 | every element whose new index is inside the array moves by exactly `amount`, and a slot nothing lands in is `undefined` |
| ArrayShift.ShiftedExtremes | gui/util.js:17-26 | a shift by zero copies the array; a shift by the length or more, either way, leaves every slot `undefined` |
| ArrayShift.ShiftedBack | gui/util.js:17-26 | shifting by `k` and back by `-k` restores exactly the elements that stayed inside and leaves the others `undefined` |
| FunctionCaches.ScaleRow | gui/cache.js:13-17 | the inner loop multiplies every defined sample of one row by the factor and leaves the missing ones missing |
| FunctionCaches.FunctionCache.constructor | gui/cache.js:3 | the cache starts with no rows |
| FunctionCaches.FunctionCache.ShiftCache | gui/cache.js:5-9 | every row is replaced by its `shiftAndDelete` copy, and the number of rows is kept |
| FunctionCaches.FunctionCache.ScaleCache | gui/cache.js:11-20 | every defined sample of every row is multiplied by the factor in place; nothing else changes (nothing in the sources calls it) |
| FunctionCaches.ClearedRows | gui/cache.js:22-24 | row `index` is emptied and the others are kept; with no index every row is kept |
| FunctionCaches.FunctionCache.ClearCache | gui/cache.js:22-24 | the rows become `ClearedRows` of the old rows: called without an index, as the zoom handler does, they are unchanged |
| FunctionCaches.FunctionCache.ClearAll | gui/graph.js:193-212 | the corrected clearing for a zoom: every row is emptied, one by one, and the number of rows is kept |
| FunctionCaches.ZoomKeepsSamples | gui/graph.js:193-212 | as written, a sample cached before a zoom is read again after it |
| FunctionCaches.ClearAllRecomputes | gui/function.js:37-47 | after the corrected clearing, every slot the plotting loop reads is `undefined`, so every sample is computed afresh |
| FunctionCaches.ShiftedRowsKeepShape | gui/cache.js:5-9 | panning keeps the number of rows and every row's length, and a pan by zero changes nothing |
| FunctionCaches.ScaledRowsKeepGaps | gui/cache.js:11-20 | `scaleCache` keeps every length, keeps every missing sample missing, and multiplies exactly the defined ones |
| FunctionCaches.ScaleByOne | gui/cache.js:11-20 | scaling by one changes nothing |
| JavaExamples.NoFunctionPasses | src/tree/ExpressionTree.java:204-208 | with no function token the constructor's per-function passes change nothing |
| JavaExamples.ArithmeticValue | src/tree/ExpressionTree.java:77-81 | `+ - * /` and `^` evaluate to the sum, difference, product, quotient and `Math.pow`; a division by zero gives a non-real result (`None`), the model's stand-in for the `Infinity` or `NaN` of Java's double division (see Left out) |
| JavaExamples.SolvedBinary | src/tree/ExpressionTree.java:225-247 | an operator node over two operand leaves evaluates to the operator applied to their values |
| JavaExamples.BuiltBinary | src/tree/ExpressionTree.java:442-461 | two leaves and an operator build the operator's node, the earlier leaf on the left |
| JavaExamples.ConstructedBinary | src/tree/ExpressionTree.java:199-211 | a string that parses and fuses to two operands and an operator constructs that operator's node |
| JavaExamples.ParseWide | src/tree/ExpressionTree.java:256-378 | two two-digit numbers around a spaced operator parse to the four digits with one SPACE after the first number and the operator last |
| JavaExamples.FuseTwoNumbers | src/tree/ExpressionTree.java:385-414 | that list fuses to the two numbers' OPERANDs followed by the operator |
| JavaExamples.ConstructedWide | src/tree/ExpressionTree.java:199-211 | the constructor on such a string builds the operator's node over the two numbers |
| JavaExamples.WideTest | src/tests/OperationTests.java:18-23 | "15 + 40", "30 - 10", "30 * 10" and "30 / 12" evaluate to the operator applied to the two numbers |
| JavaExamples.ParseNarrow | src/tree/ExpressionTree.java:256-378 | a digit, a spaced operator and a digit parse to the digits with one SPACE between and the operator last |
| JavaExamples.FuseNarrow | src/tree/ExpressionTree.java:385-414 | that list fuses to the two OPERANDs followed by the operator |
| JavaExamples.ConstructedNarrow | src/tree/ExpressionTree.java:199-211 | the constructor on such a string builds the operator's node over the two digits |
| JavaExamples.NarrowTest | src/tests/OperationTests.java:11-16 | "5 + 4", "5 - 4", "5 * 4", "5 / 4" and "8 / 4" evaluate to the operator applied to the two digits |
| JavaExamples.ParsePower | src/tree/ExpressionTree.java:256-378 | a digit, `^` and two digits parse to the base, a SPACE, the exponent's digits and POW |
| JavaExamples.FuseOneThenTwo | src/tree/ExpressionTree.java:385-414 | that list fuses to the base's OPERAND, the exponent's OPERAND and POW |
| JavaExamples.ConstructedPower | src/tree/ExpressionTree.java:199-211 | the constructor on such a string builds POW's node over the two numbers |
| JavaExamples.PowerTest | src/tests/OperationTests.java:252-257 | "5^10" evaluates to `Math.pow` of the base and the two-digit exponent |
| JavaExamples.ParseTightLeft | src/tree/ExpressionTree.java:263-367 | a digit and an unspaced operator scan to the digit, a SPACE and the operator on the stack |
| JavaExamples.ParseTightTail | src/tree/ExpressionTree.java:303-377 | the last digit goes to the output and the operator follows it |
| JavaExamples.ParseTight | src/tree/ExpressionTree.java:256-378 | a digit, an unspaced operator and a digit parse to the first digit, a SPACE, the second digit and the operator |
| JavaExamples.ConstructedTight | src/tree/ExpressionTree.java:199-211 | the constructor on such a string builds the operator's node over the two digits |
| JavaExamples.TightPowerTest | src/tests/OperationTests.java:232-236 | "5^2" evaluates to `Math.pow` of the two digits |
| JavaExamples.NegatedOpen | src/tree/ExpressionTree.java:328-367 | the leading `-` is pushed as a binary operator and the `(` on top of it |
| JavaExamples.NegatedHundred | src/tree/ExpressionTree.java:266-325 | `100 ` reads as its three digits and a SPACE |
| JavaExamples.NegatedMinus | src/tree/ExpressionTree.java:358-367 | the binary `-` stops at the `(` and is pushed over it |
| JavaExamples.NegatedSign | src/tree/ExpressionTree.java:358-367 | the sign `-` pops the binary `-` and is pushed in its place |
| JavaExamples.NegatedSignStep | src/tree/ExpressionTree.java:358-367 | over `- ( -`, the `-` pops the top `-` to the output and pushes its own |
| JavaExamples.NegatedCloseStep | src/tree/ExpressionTree.java:331-344 | the `)` pops the inner `-` and the `(`, leaving the leading `-` |
| JavaExamples.NegatedClose | src/tree/ExpressionTree.java:303-377 | `5)` and the end of the scan append `5`, a SPACE, the inner `-` and the leading `-` |
| JavaExamples.NegatedCloseTail | src/tree/ExpressionTree.java:331-377 | the final `)` and the drain append the inner and then the leading `-` |
| JavaExamples.NegatedTail | src/tree/ExpressionTree.java:303-377 | the scan from the sign `-` on appends `-`, `5`, a SPACE, `-` and `-` |
| JavaExamples.ParseNegatedLeft | src/tree/ExpressionTree.java:263-367 | the scan of `-(100 - ` leaves `1 0 0 SP` and the stack `- ( -` |
| JavaExamples.ParseNegatedRight | src/tree/ExpressionTree.java:263-377 | the rest of the scan yields the whole postfix list |
| JavaExamples.ParseNegated | src/tree/ExpressionTree.java:256-378 | `-(100 - -5)` parses to `1 0 0 SP - 5 SP - -`: both minus signs are read as binary operators |
| JavaExamples.FuseThree | src/tree/ExpressionTree.java:388-406 | a three-digit run that another token follows fuses to its OPERAND |
| JavaExamples.FuseHundred | src/tree/ExpressionTree.java:388-406 | the leading run `1 0 0` fuses to the OPERAND 100 |
| JavaExamples.FuseFive | src/tree/ExpressionTree.java:388-406 | after it, the run `5` fuses and the other tokens pass unchanged |
| JavaExamples.FuseNegatedRuns | src/tree/ExpressionTree.java:388-406 | that list's runs fuse to 100 and 5 |
| JavaExamples.NegatedSpacesOut | src/tree/ExpressionTree.java:409-413 | the two separated SPACEs are removed |
| JavaExamples.FuseNegated | src/tree/ExpressionTree.java:385-414 | the list fuses to `100 - 5 - -` |
| JavaExamples.NegatedTest | src/tests/OperationTests.java:112-116 | the constructor on `-(100 - -5)` pops an empty stack at the first `-`, where the test expects -105 |

## Left out

- Floating point: values are exact `real`s. IEEE rounding, `Infinity` and `NaN` are not modelled. A division by zero gives a non-real result (`None`), the stand-in for `Infinity` or `NaN`, and a literal that does not parse is an error. A non-real operand always gives a non-real result here, where the host can turn an infinity back into a real (`1 / Infinity` is 0 in JavaScript).
- The `Math` library (`Math.pow`, `Math.sin`, `Math.log`, ...) is an uninterpreted `Numeric.MathLib` parameter. The name-to-function table of calc/function.js is modelled by `ExpressionTree.PrimOf`, `Binary` and `Unary`, its `tanh` entry calling `Math.cosh` included; only the `Math` functions behind it are left uninterpreted.
- `solve()`'s `DecimalFormat("#.###")` rounding in src/tree/ExpressionTree.java:214-223 is not modelled. The test lemmas state the value before rounding.
- The tests' decimal cases ("5.7 + 4.63", "2^3.1", ...) are not stated. Of the integer cases, the four shapes named at the top are stated, and `"-(100 - -5)"` is shown to throw. The other tests are not stated.
- Aliasing in the JavaScript lexer: a function's argument tokens are a fresh value per function token, appended when its parenthesis closes. In the source they are a shared array. Every `sin` token that `functionMap` hands out is the same object with one `subtokens` array. So in `sin(x)+sin(1)` both calls push their arguments into that one array, and both read `x` and `1`. The array also keeps growing across expressions. The model gives each call only its own arguments. The Java sublist, which one list is shared by every function token, is modelled as shared.
- JavaScript `Error` messages are not modelled, only which error is raised.
- Lexer.Tokenize: a white-space character other than a space gives an `undefined` token, which the source's retagging pass then dereferences. The model returns the error `UndefinedToken` at that point.
- JavaParse.ParseInfix: an unknown character such as `#` yields `NullType` as soon as it is read. In src/tree/ExpressionTree.java the operator branch pushes a `null`-typed token when the stack is empty, and what happens next depends on the input. `"1+#"` and `"(#)"` throw a NullPointerException at once in `precedence` (line 362). `"#)"` pops the token into the output at line 335, then `stack.pop()` throws an EmptyStackException at line 342. `"#("` throws "Invalid Expression Format" at lines 371-373. `"#ab"` throws StringIndexOutOfBoundsException in the name lookup at lines 286-296. Only inputs such as `"#"`, `"1#"` and `"#1"` parse, and those throw a NullPointerException later, in `concatenateExpression`, when `isOperand` calls `digitMap.containsValue(null)`.
- JavaParse.Step: the same early `NullType` for an unknown character on an empty stack, as stated for `JavaParse.ParseInfix`. JavaParse.ScanChar, JavaParse.ScanSymbol and JavaParse.UnknownCharacter state the same turn.
- JavaParse.Step and JavaLegacy.Step: letters and digits are the ASCII ones. Java's `Character.isLetter` and `Character.isDigit` also accept other Unicode letters and digits. In the earlier version `"٣"` reads as the digit THREE. In the later version `"٣+1"` throws in `Double.parseDouble`, and `"é(1)"` enters the name lookup. The model treats all of these as unknown characters.
- Condenser.Condense: requires every run token to show one glyph. The source's splice arithmetic counts characters, and every token the lexer produces meets this.
- FunctionCaches.FunctionCache.ClearCache: an index at or past the end of the cache is not modelled. JavaScript would grow the array with holes that `shiftCache` and `scaleCache` then fail on. Nothing in the sources passes an index.
- The GUI (canvas drawing, coordinates, `formatDecimal`, colours, event handlers) and gui/grapher.js, which duplicates the cache functions, are not part of this model.
- Printing and debugging helpers are not modelled: `drawTree`, `traverseNodes`, `printNode`, `printTokens` and the tree printer of src/tree/ExpressionTree.java.
- The pipeline glue in calc/expression.js and the Java `Expression` wrapper is not part of this model.

## Findings

| source | as written | input that shows it | evidently intended | confidence | as-written member | corrected member |
|---|---|---|---|---|---|---|
| calc/lexer.js:25-37 | the name lookup tries lengths 2, 3, 4 and stops at the first hit, so `sin`, `cos` and `tan` shadow `sinh`, `cosh` and `tanh`; the `h` is skipped as the opening parenthesis | "sinh(0)" lexes as SIN, FUNCTION_OPEN, with the scan resuming at `(` | every function-map name is lexed as its own token (longest match first) | not executed | Lexer.HyperbolicNamesShadowed | Lexer.LongestLookupReachesEveryName |
| gui/graph.js:210 | the zoom handler calls `clearCache()` with no index, which writes a property named "undefined" and keeps every row | zooming after one render: every slot cached at the old scale is drawn again at the new one | a zoom empties every row so that the plotting loop recomputes each sample | not executed | FunctionCaches.ZoomKeepsSamples | FunctionCaches.ClearAllRecomputes |
| calc/postfix.js:214 | a run is fused only when a token follows it, so a number that ends the stream stays as separate digit tokens | the postfix `[ONE, FIVE]` of "15" is left as two digits | every run becomes one operand literal, the one that ends the stream included | not executed | CondenserLaws.TrailingRunNotFused | CondenserLaws.FusedAllFusesRuns |

/** The earlier src/ExpressionTree.java: `parseInfix`, `buildTree` and
    `toString`, with no literal fusing and no function arguments.

    Its scan is the character-level shunting-yard of the later version
    without the shared argument list, the `e` and `pi` branches and the
    function-parenthesis flag: a function token goes to the output as it is
    read, and the tree builder makes every token that is not an operator a
    leaf, so a number of several digits stays a row of digit leaves. */
module JavaLegacy {
  import opened Outcomes
  import opened Stacks
  import opened JavaTypes
  import JavaParse
  import JavaEval
  import Numeric

  /** The token of a digit character: this version's tokens carry only a
      type and their glyphs. */
  function DigitToken(c: char): (t: JToken)
    requires Numeric.IsDigitChar(c)
    ensures IsDigitType(t.kind) && t.value.None? && t.show == [c]
  {
    JToken(DigitType(c), None, [], [c])
  }

  /** The token the operator branch makes of a character that has no entry
      in the operator table: `binaryOperationMap.get` gives it the `null`
      type. */
  function NullToken(c: char): (t: JToken)
    ensures t.kind == NoType && !IsOperatorType(t.kind) && t.show == [c]
  {
    JToken(NoType, None, [], [c])
  }

  /** The scan's variables after reading `infix[..i]`. */
  datatype Scan = Scan(i: nat, tokens: seq<JToken>, stack: seq<JToken>, hasCoeff: bool)

  const START := Scan(0, [], [], false)

  /** The function-name lookup at `infix[i]`: the next three characters,
      then the next four; `substring` past the end of the string throws, and
      four characters that name no function are an unknown operation. */
  function NameLength(s: string, i: nat): (r: Result<nat, JavaError>)
    ensures r.Ok? ==> i + r.value <= |s| && s[i..i + r.value] in FUNCTION_TYPES
  {
    if i + 3 > |s| then Err(IndexOutOfBounds)
    else if s[i..i + 3] in FUNCTION_TYPES then Ok(3)
    else if i + 4 > |s| then Err(IndexOutOfBounds)
    else if s[i..i + 4] in FUNCTION_TYPES then Ok(4)
    else Err(UnknownFunction(s[i..i + 4]))
  }

  /** The `x` branch: a pending coefficient pushes a multiplication first. */
  function VariableStep(st: Scan): Scan {
    st.(i := st.i + 1,
        stack := if st.hasCoeff then st.stack + [JavaParse.MULTIPLY_TOKEN] else st.stack,
        hasCoeff := false,
        tokens := st.tokens + [JavaParse.VARIABLE_TOKEN])
  }

  /** The function-name branch: the function token goes to the output and
      the scan resumes after the name. */
  function NameTurn(s: string, st: Scan): (r: Result<Scan, JavaError>)
    ensures r.Ok? ==> st.i < r.value.i <= |s|
  {
    var j :- NameLength(s, st.i);
    Ok(st.(i := st.i + j, tokens := st.tokens + [JavaParse.FunctionToken(s[st.i..st.i + j])]))
  }

  /** The digit branch: a following `x` makes the digit a coefficient; a
      following character that is not `x`, a digit or a point ends the
      number with a SPACE. */
  function DigitStep(s: string, st: Scan): Scan
    requires st.i < |s| && Numeric.IsDigitChar(s[st.i])
  {
    var next := st.i + 1 < |s|;
    var coeff := next && s[st.i + 1] == 'x';
    var sep := next && s[st.i + 1] != 'x' && !Numeric.IsDigitChar(s[st.i + 1]) && s[st.i + 1] != '.';
    st.(i := st.i + 1, hasCoeff := st.hasCoeff || coeff,
        tokens := st.tokens + [DigitToken(s[st.i])] + (if sep then [JavaParse.SPACE_TOKEN] else []))
  }

  /** The `)` branch: pop to the nearest open parenthesis, then pop that;
      an empty stack there throws. */
  function CloseStep(st: Scan): Result<Scan, JavaError> {
    var m := OpenHeight(st.stack, |st.stack|);
    if m == 0 then Err(EmptyStack)
    else Ok(st.(i := st.i + 1, tokens := st.tokens + Reversed(st.stack[m..]), stack := st.stack[..m - 1]))
  }

  /** The operator branch: pop what binds at least as tightly, then push.
      The loop reads the precedence of every entry it pops and of the one
      it stops at, so a `null`-typed entry there throws. */
  function OperatorStep(st: Scan, c: char): Result<Scan, JavaError>
    requires c in OPERATOR_TYPES
  {
    var t := JavaParse.OperatorToken(c);
    var m := BindingHeight(st.stack, Precedence(t.kind), |st.stack|);
    if 0 < m && st.stack[m - 1].kind == NoType then Err(NullType(st.stack[m - 1].show))
    else Ok(st.(i := st.i + 1, tokens := st.tokens + Reversed(st.stack[m..]), stack := st.stack[..m] + [t]))
  }

  /** The operator branch for a character with no operator entry: on an
      empty stack the loop test stops before `precedence` is called and the
      `null`-typed token is pushed; on any other stack `precedence(null)`
      throws at once. */
  function UnknownStep(st: Scan, c: char): Result<Scan, JavaError> {
    if st.stack == [] then Ok(st.(i := st.i + 1, stack := [NullToken(c)]))
    else Err(NullType([c]))
  }

  /** One turn of the scan loop, from `infix[st.i]`. Every letter but `x`
      starts a function name; every character with no branch of its own
      goes to the operator branch. */
  function Step(s: string, st: Scan): (r: Result<Scan, JavaError>)
    requires st.i < |s|
    ensures r.Ok? ==> st.i < r.value.i <= |s|
  {
    var c := s[st.i];
    if c == ' ' then Ok(st.(i := st.i + 1))
    else if c == 'x' then Ok(VariableStep(st))
    else if IsLetter(c) then NameTurn(s, st)
    else if Numeric.IsDigitChar(c) then Ok(DigitStep(s, st))
    else if c == '(' then Ok(st.(i := st.i + 1, stack := st.stack + [JavaParse.OPEN_TOKEN]))
    else if c == ')' then CloseStep(st)
    else if c == '.' then Ok(st.(i := st.i + 1, tokens := st.tokens + [JavaParse.DECIMAL_TOKEN]))
    else if c in OPERATOR_TYPES then OperatorStep(st, c)
    else UnknownStep(st, c)
  }

  /** The scan from `st` on, with the final drain of the stack. */
  function Run(s: string, st: Scan): Result<seq<JToken>, JavaError>
    requires st.i <= |s|
    decreases |s| - st.i
  {
    if st.i == |s| then
      var out :- Drained(st.stack);
      Ok(st.tokens + out)
    else
      var next :- Step(s, st);
      Run(s, next)
  }

  /** What `parseInfix(infix)` returns or throws. */
  function Parsed(infix: string): Result<seq<JToken>, JavaError> {
    Run(infix, START)
  }

  lemma RunStep(s: string, st: Scan, next: Scan)
    requires st.i < |s| && Step(s, st) == Ok(next)
    ensures Run(s, st) == Run(s, next)
  {
  }

  lemma RunThrows(s: string, st: Scan, e: JavaError)
    requires st.i < |s| && Step(s, st) == Err(e)
    ensures Run(s, st) == Err(e)
  {
  }

  // The name lookup

  /** The lookup returns three when the next three characters name a
      function and four when only the next four do; nothing else. */
  lemma NameLengthThreeThenFour(s: string, i: nat, n: nat)
    ensures NameLength(s, i) == Ok(n) <==>
      ((n == 3 || n == 4) && i + n <= |s| && s[i..i + n] in FUNCTION_TYPES
       && (n == 4 ==> s[i..i + 3] !in FUNCTION_TYPES))
  {
  }

  /** The first letters of the function names: only `log` and `ln` start
      with `l`, and no name starts with `e` or `p`. */
  lemma NameInitials()
    ensures forall k :: k in FUNCTION_TYPES ==> 3 <= |k| || k == "ln"
    ensures forall k :: k in FUNCTION_TYPES && 2 <= |k| && k[0] == 'l' && k[1] == 'n' ==> k == "ln"
    ensures forall k :: k in FUNCTION_TYPES && 1 <= |k| ==> k[0] != 'e' && k[0] != 'p'
  {
    forall k | k in FUNCTION_TYPES
      ensures 3 <= |k| || k == "ln"
      ensures 2 <= |k| && k[0] == 'l' && k[1] == 'n' ==> k == "ln"
      ensures 1 <= |k| ==> k[0] != 'e' && k[0] != 'p'
    {
      if k == "sin" {} else if k == "cos" {} else if k == "tan" {}
      else if k == "asin" {} else if k == "acos" {} else if k == "atan" {}
      else if k == "sinh" {} else if k == "cosh" {} else if k == "tanh" {}
      else if k == "sqrt" {} else if k == "cbrt" {}
      else if k == "log" {} else {
        assert k == "ln";
      }
    }
  }

  /** A string of three or four characters that starts with "ln", `e` or
      `p` names no function. */
  lemma NotAName(k: string)
    requires 3 <= |k| && ((k[0] == 'l' && k[1] == 'n') || k[0] == 'e' || k[0] == 'p')
    ensures k !in FUNCTION_TYPES
  {
    NameInitials();
  }

  /** No three- or four-letter function name starts with "ln", so the
      two-letter key `ln` of the table is never found. */
  lemma LnNeverFound(s: string, i: nat)
    requires i + 2 <= |s| && s[i] == 'l' && s[i + 1] == 'n'
    ensures NameLength(s, i).Err?
  {
    if i + 3 <= |s| {
      NotAName(s[i..i + 3]);
      if i + 4 <= |s| {
        NotAName(s[i..i + 4]);
      }
    }
  }

  /** "sinh", "cosh" and "tanh" are read as "sin", "cos" and "tan": the
      three-character lookup comes first. */
  lemma HyperbolicShadowed(s: string, i: nat)
    requires i + 4 <= |s| && s[i..i + 4] in {"sinh", "cosh", "tanh"}
    ensures NameLength(s, i) == Ok(3)
  {
    var four := s[i..i + 4];
    assert s[i..i + 3] == four[..3];
    if four == "sinh" {
      assert four[..3] == "sin";
    } else if four == "cosh" {
      assert four[..3] == "cos";
    } else {
      assert four[..3] == "tan";
    }
  }

  /** `e` and `p` start no function name, so the constants `e` and `pi`
      are rejected. */
  lemma ConstantsRejected(s: string, st: Scan)
    requires st.i < |s| && (s[st.i] == 'e' || s[st.i] == 'p')
    ensures Run(s, st).Err?
  {
    NoNameAt(s, st.i);
    StepLetter(s, st);
    RunThrows(s, st, NameLength(s, st.i).error);
  }

  lemma NoNameAt(s: string, i: nat)
    requires i < |s| && (s[i] == 'e' || s[i] == 'p')
    ensures NameLength(s, i).Err?
  {
    if i + 3 <= |s| {
      NotAName(s[i..i + 3]);
      if i + 4 <= |s| {
        NotAName(s[i..i + 4]);
      }
    }
  }

  /** A letter other than `x` starts a function name. */
  lemma StepLetter(s: string, st: Scan)
    requires st.i < |s| && IsLetter(s[st.i]) && s[st.i] != 'x'
    ensures Step(s, st) == NameTurn(s, st)
  {
  }

  /** The operator glyphs. */
  lemma OperatorGlyphs(c: char)
    requires c in OPERATOR_TYPES
    ensures c == '+' || c == '-' || c == '*' || c == '/' || c == '^'
  {
  }

  /** A character with no branch and no operator entry is pushed as a
      `null`-typed token when the stack is empty, and throws otherwise. */
  lemma UnknownCharacter(s: string, st: Scan)
    requires st.i < |s| && !IsLetter(s[st.i]) && !Numeric.IsDigitChar(s[st.i])
    requires s[st.i] !in {' ', '(', ')', '.'} && s[st.i] !in OPERATOR_TYPES
    ensures st.stack == [] ==> Run(s, st) == Run(s, st.(i := st.i + 1, stack := [NullToken(s[st.i])]))
    ensures st.stack != [] ==> Run(s, st) == Err(NullType([s[st.i]]))
  {
    assert Step(s, st) == UnknownStep(st, s[st.i]);
  }

  // One lemma per branch of the turn, to step through concrete scans

  lemma StepDigit(s: string, st: Scan)
    requires st.i < |s| && Numeric.IsDigitChar(s[st.i])
    ensures Run(s, st) == Run(s, DigitStep(s, st))
  {
    assert Step(s, st) == Ok(DigitStep(s, st));
  }

  lemma StepVariable(s: string, st: Scan)
    requires st.i < |s| && s[st.i] == 'x'
    ensures Run(s, st) == Run(s, VariableStep(st))
  {
    assert Step(s, st) == Ok(VariableStep(st));
  }

  lemma StepOpen(s: string, st: Scan)
    requires st.i < |s| && s[st.i] == '('
    ensures Run(s, st) == Run(s, st.(i := st.i + 1, stack := st.stack + [JavaParse.OPEN_TOKEN]))
  {
    assert Step(s, st) == Ok(st.(i := st.i + 1, stack := st.stack + [JavaParse.OPEN_TOKEN]));
  }

  lemma StepClose(s: string, st: Scan)
    requires st.i < |s| && s[st.i] == ')'
    ensures CloseStep(st).Ok? ==> Run(s, st) == Run(s, CloseStep(st).value)
    ensures CloseStep(st).Err? ==> Run(s, st) == Err(CloseStep(st).error)
  {
    assert Step(s, st) == CloseStep(st);
  }

  lemma StepOperator(s: string, st: Scan)
    requires st.i < |s| && s[st.i] in OPERATOR_TYPES
    ensures OperatorStep(st, s[st.i]).Ok? ==> Run(s, st) == Run(s, OperatorStep(st, s[st.i]).value)
    ensures OperatorStep(st, s[st.i]).Err? ==> Run(s, st) == Err(OperatorStep(st, s[st.i]).error)
  {
    var c := s[st.i];
    OperatorBranch(c);
    assert Step(s, st) == OperatorStep(st, c);
    var r := OperatorStep(st, c);
    if r.Ok? {
      RunStep(s, st, r.value);
    } else {
      RunThrows(s, st, r.error);
    }
  }

  /** An operator glyph passes every earlier test of the turn. */
  lemma OperatorBranch(c: char)
    requires c in OPERATOR_TYPES
    ensures c != ' ' && c != 'x' && !IsLetter(c) && !Numeric.IsDigitChar(c)
    ensures c != '(' && c != ')' && c != '.'
  {
    OperatorGlyphs(c);
  }

  /** On an empty stack the operator branch only pushes. */
  lemma OperatorOnEmpty(st: Scan, c: char)
    requires c in OPERATOR_TYPES && st.stack == []
    ensures OperatorStep(st, c) == Ok(st.(i := st.i + 1, stack := [JavaParse.OperatorToken(c)]))
  {
    var t := JavaParse.OperatorToken(c);
    assert st.stack[0..] == [] && st.stack[..0] + [t] == [t];
    assert st.tokens + Reversed([]) == st.tokens;
  }

  // Examples

  /** A coefficient: `2x` reads as `2 x *`. */
  lemma CoefficientExample(s: string)
    requires s == "2x"
    ensures Parsed(s) == Ok([DigitToken('2'), JavaParse.VARIABLE_TOKEN, JavaParse.MULTIPLY_TOKEN])
  {
    var s1 := Scan(1, [DigitToken('2')], [], true);
    StepDigit(s, START);
    assert DigitStep(s, START) == s1;
    var s2 := Scan(2, [DigitToken('2'), JavaParse.VARIABLE_TOKEN], [JavaParse.MULTIPLY_TOKEN], false);
    StepVariable(s, s1);
    assert VariableStep(s1) == s2;
    assert Reversed(s2.stack) == [JavaParse.MULTIPLY_TOKEN];
    assert Drained(s2.stack) == Ok([JavaParse.MULTIPLY_TOKEN]);
    assert Run(s, s2) == Ok(s2.tokens + [JavaParse.MULTIPLY_TOKEN]);
    assert s2.tokens + [JavaParse.MULTIPLY_TOKEN] == [DigitToken('2'), JavaParse.VARIABLE_TOKEN, JavaParse.MULTIPLY_TOKEN];
  }

  /** A separator: `1+2` reads as `1 SPACE 2 +`. */
  lemma SeparatorExample(s: string)
    requires s == "1+2"
    ensures Parsed(s) == Ok([DigitToken('1'), JavaParse.SPACE_TOKEN, DigitToken('2'), JavaParse.OperatorToken('+')])
  {
    assert |s| == 3 && s[0] == '1' && s[1] == '+' && s[2] == '2';
    SumLeft(s);
    SumRight(s);
  }

  /** After `1+`, a last digit goes to the output and the drain appends `+`. */
  lemma SumRight(s: string)
    requires |s| == 3 && Numeric.IsDigitChar(s[2])
    ensures var plus := JavaParse.OperatorToken('+');
      Run(s, Scan(2, [DigitToken('1'), JavaParse.SPACE_TOKEN], [plus], false))
      == Ok([DigitToken('1'), JavaParse.SPACE_TOKEN, DigitToken(s[2]), plus])
  {
    var plus := JavaParse.OperatorToken('+');
    var s2 := Scan(2, [DigitToken('1'), JavaParse.SPACE_TOKEN], [plus], false);
    LastDigitDrain(s, s2);
    assert s2.tokens + [DigitToken(s[2])] + [plus] == [DigitToken('1'), JavaParse.SPACE_TOKEN, DigitToken(s[2]), plus];
  }

  /** A digit that ends the string goes to the output, then a stack of one
      operator is appended. */
  lemma LastDigitDrain(s: string, st: Scan)
    requires st.i + 1 == |s| && Numeric.IsDigitChar(s[st.i])
    requires |st.stack| == 1 && IsOperatorType(st.stack[0].kind)
    ensures Run(s, st) == Ok(st.tokens + [DigitToken(s[st.i])] + st.stack)
  {
    StepDigit(s, st);
    var next := st.(i := st.i + 1, tokens := st.tokens + [DigitToken(s[st.i])]);
    assert st.tokens + [DigitToken(s[st.i])] + [] == next.tokens;
    assert DigitStep(s, st) == next;
    DrainOne(s, next);
  }

  /** At the end of the string, a stack of one operator is appended. */
  lemma DrainOne(s: string, st: Scan)
    requires st.i == |s| && |st.stack| == 1 && IsOperatorType(st.stack[0].kind)
    ensures Run(s, st) == Ok(st.tokens + st.stack)
  {
    assert Reversed(st.stack) == st.stack;
    assert Drained(st.stack) == Ok(st.stack);
  }

  /** An open parenthesis left on the stack throws "Invalid Expression Format". */
  lemma UnclosedExample(s: string)
    requires s == "(1"
    ensures Parsed(s) == Err(InvalidExpressionFormat)
  {
    var s1 := Scan(1, [], [JavaParse.OPEN_TOKEN], false);
    StepOpen(s, START);
    var s2 := Scan(2, [DigitToken('1')], [JavaParse.OPEN_TOKEN], false);
    StepDigit(s, s1);
    assert DigitStep(s, s1) == s2;
    assert s2.stack[0].kind == OpenParenthesis;
  }

  /** A close parenthesis with no open one pops an empty stack. */
  lemma UnopenedExample(s: string)
    requires s == "1)"
    ensures Parsed(s) == Err(EmptyStack)
  {
    var s1 := Scan(1, [DigitToken('1'), JavaParse.SPACE_TOKEN], [], false);
    StepDigit(s, START);
    assert DigitStep(s, START) == s1;
    StepClose(s, s1);
  }

  /** A lone unknown character is pushed as a `null`-typed token, drained
      to the output and built into a leaf; `toString` shows it as it is. */
  lemma UnknownAloneExample(s: string)
    requires s == "#"
    ensures Parsed(s) == Ok([NullToken('#')])
    ensures Built([NullToken('#')]) == Ok(JavaEval.Node(NullToken('#'), JavaEval.Nil, JavaEval.Nil))
    ensures Shown([NullToken('#')]) == "#"
  {
    var s1 := Scan(1, [], [NullToken('#')], false);
    UnknownCharacter(s, START);
    NullAloneDrained(s, s1);
    NullAloneTree('#');
  }

  /** The end of a scan whose only entry is a `null`-typed token. */
  lemma NullAloneDrained(s: string, st: Scan)
    requires st.i == |s| && st.tokens == [] && |st.stack| == 1 && st.stack[0].kind == NoType
    ensures Run(s, st) == Ok(st.stack)
  {
    assert st.stack[0].kind != OpenParenthesis;
    assert Reversed(st.stack) == st.stack;
    assert Drained(st.stack) == Ok(st.stack);
    assert st.tokens + st.stack == st.stack;
  }

  /** A lone `null`-typed token builds its own leaf and shows its character. */
  lemma NullAloneTree(c: char)
    ensures Built([NullToken(c)]) == Ok(JavaEval.Node(NullToken(c), JavaEval.Nil, JavaEval.Nil))
    ensures Shown([NullToken(c)]) == [c]
  {
    var t := NullToken(c);
    var leaf := JavaEval.Node(t, JavaEval.Nil, JavaEval.Nil);
    assert BuiltFrom([t], 0, []) == BuiltFrom([t], 1, [leaf]);
    assert [t][..0] == [];
    assert Shown([t]) == Shown([]) + [c];
  }

  /** An unknown character read over a non-empty stack throws at once. */
  lemma UnknownOperandExample(s: string)
    requires s == "1+#"
    ensures Parsed(s) == Err(NullType("#"))
  {
    assert |s| == 3 && s[0] == '1' && s[1] == '+' && s[2] == '#';
    UnknownAfterSum(s);
  }

  /** The scan of a digit, `+` and an unknown character. */
  lemma UnknownAfterSum(s: string)
    requires |s| == 3 && s[0] == '1' && s[1] == '+' && s[2] == '#'
    ensures Parsed(s) == Err(NullType([s[2]]))
  {
    var s2 := Scan(2, [DigitToken('1'), JavaParse.SPACE_TOKEN], [JavaParse.OperatorToken('+')], false);
    SumLeft(s);
    UnknownCharacter(s, s2);
  }

  /** `1+` leaves `1` and a SPACE in the output and `+` on the stack. */
  lemma SumLeft(s: string)
    requires 2 < |s| && s[0] == '1' && s[1] == '+'
    ensures Parsed(s) == Run(s, Scan(2, [DigitToken('1'), JavaParse.SPACE_TOKEN], [JavaParse.OperatorToken('+')], false))
  {
    var s1 := Scan(1, [DigitToken('1'), JavaParse.SPACE_TOKEN], [], false);
    StepDigit(s, START);
    assert DigitStep(s, START) == s1;
    StepOperator(s, s1);
    OperatorOnEmpty(s1, '+');
  }

  /** An operator that reaches a `null`-typed entry throws in `precedence`. */
  lemma OperatorOnNull(st: Scan, c: char, g: char)
    requires c in OPERATOR_TYPES && st.stack == [NullToken(g)]
    ensures OperatorStep(st, c) == Err(NullType([g]))
  {
    var t := JavaParse.OperatorToken(c);
    assert BindingHeight(st.stack, Precedence(t.kind), 1) == 1;
  }

  /** `#+1`: the `null`-typed token is pushed, and the `+` throws on it. */
  lemma UnknownFirstExample(s: string)
    requires s == "#+1"
    ensures Parsed(s) == Err(NullType("#"))
  {
    var s1 := Scan(1, [], [NullToken('#')], false);
    UnknownCharacter(s, START);
    StepOperator(s, s1);
    OperatorOnNull(s1, '+', '#');
  }

  /** `#)`: the `)` moves the pushed `null`-typed token to the output and
      then pops an empty stack. */
  lemma UnknownCloseExample(s: string)
    requires s == "#)"
    ensures Parsed(s) == Err(EmptyStack)
  {
    var s1 := Scan(1, [], [NullToken('#')], false);
    UnknownCharacter(s, START);
    StepClose(s, s1);
    assert CloseStep(s1) == Err(EmptyStack);
  }

  /** `#(`: the open parenthesis left on the stack at the end throws. */
  lemma UnknownOpenExample(s: string)
    requires s == "#("
    ensures Parsed(s) == Err(InvalidExpressionFormat)
  {
    var s1 := Scan(1, [], [NullToken('#')], false);
    UnknownCharacter(s, START);
    assert Parsed(s) == Run(s, s1);
    StepOpen(s, s1);
    var s2 := Scan(2, [], [NullToken('#'), JavaParse.OPEN_TOKEN], false);
    assert Run(s, s1) == Run(s, s2);
    assert s2.stack[1].kind == OpenParenthesis;
  }

  /** `#ab`: the name lookup at `a` reads past the end of the string. */
  lemma UnknownNameExample(s: string)
    requires s == "#ab"
    ensures Parsed(s) == Err(IndexOutOfBounds)
  {
    var s1 := Scan(1, [], [NullToken('#')], false);
    UnknownCharacter(s, START);
    StepLetter(s, s1);
    assert NameLength(s, 1) == Err(IndexOutOfBounds);
    RunThrows(s, s1, IndexOutOfBounds);
  }

  // What the scan produces: no parentheses

  predicate NoParentheses(ts: seq<JToken>) {
    forall k :: 0 <= k < |ts| ==> ts[k].kind != OpenParenthesis && ts[k].kind != CloseParenthesis
  }

  predicate NoClose(ts: seq<JToken>) {
    forall k :: 0 <= k < |ts| ==> ts[k].kind != CloseParenthesis
  }

  /** The output holds no parentheses and the stack no close parenthesis. */
  predicate Clean(st: Scan) {
    NoParentheses(st.tokens) && NoClose(st.stack)
  }

  /** Popping the top of a stack from `m` on moves no parenthesis when
      none of the popped elements is an open one. */
  lemma PopClean(tokens: seq<JToken>, stack: seq<JToken>, m: nat)
    requires m <= |stack| && NoParentheses(tokens) && NoClose(stack)
    requires forall k :: m <= k < |stack| ==> stack[k].kind != OpenParenthesis
    ensures NoParentheses(tokens + Reversed(stack[m..]))
  {
    var p := Reversed(stack[m..]);
    forall k | 0 <= k < |p| ensures p[k].kind != OpenParenthesis && p[k].kind != CloseParenthesis {
      assert p[k] == stack[m..][|p| - 1 - k] == stack[m + |p| - 1 - k];
    }
  }

  lemma OperatorClean(st: Scan, c: char)
    requires c in OPERATOR_TYPES && Clean(st) && OperatorStep(st, c).Ok?
    ensures Clean(OperatorStep(st, c).value)
  {
    var t := JavaParse.OperatorToken(c);
    var m := BindingHeight(st.stack, Precedence(t.kind), |st.stack|);
    PopClean(st.tokens, st.stack, m);
    PushClean(st.stack, m, t);
    assert OperatorStep(st, c).value.stack == st.stack[..m] + [t];
  }

  /** Cutting a stack down and pushing an entry other than `)` keeps it free of `)`. */
  lemma PushClean(stack: seq<JToken>, m: nat, t: JToken)
    requires m <= |stack| && NoClose(stack) && t.kind != CloseParenthesis
    ensures NoClose(stack[..m] + [t])
  {
    var stack' := stack[..m] + [t];
    assert forall k :: 0 <= k < m ==> stack'[k] == stack[k];
  }

  lemma CloseClean(st: Scan)
    requires Clean(st) && CloseStep(st).Ok?
    ensures Clean(CloseStep(st).value)
  {
    var m := OpenHeight(st.stack, |st.stack|);
    PopClean(st.tokens, st.stack, m);
  }

  lemma StepClean(s: string, st: Scan)
    requires st.i < |s| && Clean(st) && Step(s, st).Ok?
    ensures Clean(Step(s, st).value)
  {
    var c := s[st.i];
    if c == ' ' {
    } else if c == 'x' {
      VariableClean(st);
    } else if IsLetter(c) {
      NameClean(s, st);
    } else if Numeric.IsDigitChar(c) {
      DigitClean(s, st);
    } else if c == '(' {
      PushClean(st.stack, |st.stack|, JavaParse.OPEN_TOKEN);
      assert st.stack[..|st.stack|] == st.stack;
    } else if c == '.' {
      AppendClean(st.tokens, [JavaParse.DECIMAL_TOKEN]);
    } else if c == ')' {
      CloseClean(st);
    } else if c in OPERATOR_TYPES {
      OperatorClean(st, c);
    }
  }

  /** Appending tokens that are not parentheses keeps the output free of them. */
  lemma AppendClean(tokens: seq<JToken>, extra: seq<JToken>)
    requires NoParentheses(tokens) && NoParentheses(extra)
    ensures NoParentheses(tokens + extra)
  {
    var ts := tokens + extra;
    forall k | 0 <= k < |ts| ensures ts[k].kind != OpenParenthesis && ts[k].kind != CloseParenthesis {
      if k < |tokens| {
        assert ts[k] == tokens[k];
      } else {
        assert ts[k] == extra[k - |tokens|];
      }
    }
  }

  lemma VariableClean(st: Scan)
    requires Clean(st)
    ensures Clean(VariableStep(st))
  {
    AppendClean(st.tokens, [JavaParse.VARIABLE_TOKEN]);
    PushClean(st.stack, |st.stack|, JavaParse.MULTIPLY_TOKEN);
    assert st.stack[..|st.stack|] == st.stack;
  }

  lemma NameClean(s: string, st: Scan)
    requires Clean(st) && NameTurn(s, st).Ok?
    ensures Clean(NameTurn(s, st).value)
  {
    var j := NameLength(s, st.i).value;
    AppendClean(st.tokens, [JavaParse.FunctionToken(s[st.i..st.i + j])]);
  }

  lemma DigitClean(s: string, st: Scan)
    requires st.i < |s| && Numeric.IsDigitChar(s[st.i]) && Clean(st)
    ensures Clean(DigitStep(s, st))
  {
    AppendClean(st.tokens, [DigitToken(s[st.i])]);
    AppendClean(st.tokens + [DigitToken(s[st.i])], [JavaParse.SPACE_TOKEN]);
    assert st.tokens + [DigitToken(s[st.i])] + [] == st.tokens + [DigitToken(s[st.i])];
  }

  lemma {:induction false} RunClean(s: string, st: Scan)
    requires st.i <= |s| && Clean(st)
    ensures Run(s, st).Ok? ==> NoParentheses(Run(s, st).value)
    decreases |s| - st.i
  {
    if st.i == |s| {
      if Drained(st.stack).Ok? {
        PopClean(st.tokens, st.stack, 0);
        assert st.stack[0..] == st.stack;
      }
    } else if Step(s, st).Ok? {
      StepClean(s, st);
      RunClean(s, Step(s, st).value);
    }
  }

  /** Every parenthesis is consumed by the scan: a `)` pops its `(`, and a
      `(` left at the end throws, so the postfix list holds none. */
  lemma ParsedHasNoParentheses(infix: string)
    ensures Parsed(infix).Ok? ==> NoParentheses(Parsed(infix).value)
  {
    RunClean(infix, START);
  }

  // Where a `null`-typed token can go

  predicate NoNull(ts: seq<JToken>) {
    forall k :: 0 <= k < |ts| ==> ts[k].kind != NoType
  }

  /** A `null`-typed token is pushed only onto an empty stack, so it can
      only be the bottom entry, and it never reaches the output during the
      scan: a `)` that pops it finds no open parenthesis and throws, and an
      operator that reaches it throws in `precedence`. */
  predicate NullAtBottom(st: Scan) {
    NoNull(st.tokens) && forall k :: 0 < k < |st.stack| ==> st.stack[k].kind != NoType
  }

  /** Popping from `m` on moves no `null`-typed token when `m` is past the
      bottom entry or the bottom entry is not `null`-typed. */
  lemma PopNoNull(tokens: seq<JToken>, stack: seq<JToken>, m: nat)
    requires m <= |stack| && NoNull(tokens)
    requires forall k :: m <= k < |stack| ==> stack[k].kind != NoType
    ensures NoNull(tokens + Reversed(stack[m..]))
  {
    var p := Reversed(stack[m..]);
    forall k | 0 <= k < |p| ensures p[k].kind != NoType {
      assert p[k] == stack[m..][|p| - 1 - k] == stack[m + |p| - 1 - k];
    }
  }

  lemma OperatorNullAtBottom(st: Scan, c: char)
    requires c in OPERATOR_TYPES && NullAtBottom(st) && OperatorStep(st, c).Ok?
    ensures NullAtBottom(OperatorStep(st, c).value)
  {
    var t := JavaParse.OperatorToken(c);
    var m := BindingHeight(st.stack, Precedence(t.kind), |st.stack|);
    PopNoNull(st.tokens, st.stack, m);
    var stack' := st.stack[..m] + [t];
    assert forall k :: 0 <= k < m ==> stack'[k] == st.stack[k];
  }

  lemma CloseNullAtBottom(st: Scan)
    requires NullAtBottom(st) && CloseStep(st).Ok?
    ensures NullAtBottom(CloseStep(st).value)
  {
    var m := OpenHeight(st.stack, |st.stack|);
    PopNoNull(st.tokens, st.stack, m);
  }

  /** A push of anything but a `null`-typed token keeps it at the bottom. */
  lemma PushNullAtBottom(st: Scan, t: JToken)
    requires NullAtBottom(st) && t.kind != NoType
    ensures NullAtBottom(st.(stack := st.stack + [t]))
  {
    var stack' := st.stack + [t];
    assert forall k :: 0 <= k < |st.stack| ==> stack'[k] == st.stack[k];
  }

  lemma StepNullAtBottom(s: string, st: Scan)
    requires st.i < |s| && NullAtBottom(st) && Step(s, st).Ok?
    ensures NullAtBottom(Step(s, st).value)
  {
    var c := s[st.i];
    if c == ' ' || IsLetter(c) || Numeric.IsDigitChar(c) || c == '.' {
    } else if c == '(' {
      PushNullAtBottom(st, JavaParse.OPEN_TOKEN);
    } else if c == ')' {
      CloseNullAtBottom(st);
    } else if c in OPERATOR_TYPES {
      OperatorNullAtBottom(st, c);
    }
  }

  lemma {:induction false} RunNullLast(s: string, st: Scan)
    requires st.i <= |s| && NullAtBottom(st)
    ensures var r := Run(s, st);
      r.Ok? ==> forall k :: 0 <= k < |r.value| - 1 ==> r.value[k].kind != NoType
    decreases |s| - st.i
  {
    if st.i == |s| {
      if Drained(st.stack).Ok? && st.stack != [] {
        var r := Run(s, st).value;
        PopNoNull(st.tokens, st.stack, 1);
        assert r == st.tokens + Reversed(st.stack[1..]) + [st.stack[0]];
      }
    } else if Step(s, st).Ok? {
      StepNullAtBottom(s, st);
      RunStep(s, st, Step(s, st).value);
      RunNullLast(s, Step(s, st).value);
    }
  }

  /** A successful `parseInfix` puts a `null`-typed token, if any, last:
      it is drained from the bottom of the stack. */
  lemma ParsedNullLast(infix: string)
    ensures var r := Parsed(infix);
      r.Ok? ==> forall k :: 0 <= k < |r.value| - 1 ==> r.value[k].kind != NoType
  {
    RunNullLast(infix, START);
  }

  // The methods of parseInfix

  /** The lookup: three characters, then four. */
  method LookupName(infix: string, i: nat) returns (r: Result<nat, JavaError>)
    ensures r == NameLength(infix, i)
  {
    if i + 3 > |infix| {
      return Err(IndexOutOfBounds);
    }
    var value := infix[i..i + 3];
    if value in FUNCTION_TYPES {
      return Ok(3);
    }
    if i + 4 > |infix| {
      return Err(IndexOutOfBounds);
    }
    value := infix[i..i + 4];
    if value !in FUNCTION_TYPES {
      return Err(UnknownFunction(value));
    }
    return Ok(4);
  }

  /** The digit branch of the scan loop. */
  method ReadDigit(infix: string, i: nat, tokens: seq<JToken>, stack: seq<JToken>, hasCoeff: bool)
    returns (r: Scan)
    requires i < |infix| && Numeric.IsDigitChar(infix[i])
    ensures r == DigitStep(infix, Scan(i, tokens, stack, hasCoeff))
  {
    var hasCoeff' := hasCoeff;
    var separator := false;
    if i + 1 < |infix| {
      if infix[i + 1] == 'x' {
        hasCoeff' := true;
      } else if !Numeric.IsDigitChar(infix[i + 1]) && infix[i + 1] != '.' {
        separator := true;
      }
    }
    var tokens' := tokens + [DigitToken(infix[i])];
    if separator {
      tokens' := tokens' + [JavaParse.SPACE_TOKEN];
    }
    r := Scan(i + 1, tokens', stack, hasCoeff');
  }

  /** The `)` branch of the scan loop. */
  method ReadClose(i: nat, tokens: seq<JToken>, stack: seq<JToken>, hasCoeff: bool)
    returns (r: Result<Scan, JavaError>)
    ensures r == CloseStep(Scan(i, tokens, stack, hasCoeff))
  {
    var tokens', _, n := JavaParse.PopToOpen(tokens, [], false, stack);
    if n == 0 {
      return Err(EmptyStack);
    }
    r := Ok(Scan(i + 1, tokens', stack[..n - 1], hasCoeff));
  }

  /** The operator branch in terms of what its popping loop leaves. */
  lemma OperatorStepFrom(st: Scan, c: char, tokens: seq<JToken>, stack: seq<JToken>)
    requires c in OPERATOR_TYPES
    requires var m := BindingHeight(st.stack, Precedence(JavaParse.OperatorToken(c).kind), |st.stack|);
      tokens == st.tokens + Reversed(st.stack[m..]) && stack == st.stack[..m]
    ensures OperatorStep(st, c) ==
      if stack != [] && stack[|stack| - 1].kind == NoType then Err(NullType(stack[|stack| - 1].show))
      else Ok(Scan(st.i + 1, tokens, stack + [JavaParse.OperatorToken(c)], st.hasCoeff))
  {
    var m := BindingHeight(st.stack, Precedence(JavaParse.OperatorToken(c).kind), |st.stack|);
    if stack != [] && stack[|stack| - 1].kind == NoType {
      OperatorStepThrows(st, c, m, stack);
    } else {
      OperatorStepPushes(st, c, m, tokens, stack);
    }
  }

  /** The operator branch when the entry left on top after the pops is the
      `null`-typed token: `precedence` throws on it. */
  lemma OperatorStepThrows(st: Scan, c: char, m: nat, stack: seq<JToken>)
    requires c in OPERATOR_TYPES
    requires m == BindingHeight(st.stack, Precedence(JavaParse.OperatorToken(c).kind), |st.stack|)
    requires m <= |st.stack| && stack == st.stack[..m]
    requires stack != [] && stack[|stack| - 1].kind == NoType
    ensures OperatorStep(st, c) == Err(NullType(stack[|stack| - 1].show))
  {
    assert stack[m - 1] == st.stack[m - 1];
  }

  /** The operator branch when no `null`-typed token is met: the popped
      entries go to the output and the operator is pushed. */
  lemma OperatorStepPushes(st: Scan, c: char, m: nat, tokens: seq<JToken>, stack: seq<JToken>)
    requires c in OPERATOR_TYPES
    requires m == BindingHeight(st.stack, Precedence(JavaParse.OperatorToken(c).kind), |st.stack|)
    requires m <= |st.stack| && tokens == st.tokens + Reversed(st.stack[m..]) && stack == st.stack[..m]
    requires !(stack != [] && stack[|stack| - 1].kind == NoType)
    ensures OperatorStep(st, c) == Ok(Scan(st.i + 1, tokens, stack + [JavaParse.OperatorToken(c)], st.hasCoeff))
  {
    assert !(0 < m && st.stack[m - 1].kind == NoType) by {
      if 0 < m { assert stack[m - 1] == st.stack[m - 1]; }
    }
  }

  method ReadOperator(c: char, i: nat, tokens: seq<JToken>, stack: seq<JToken>, hasCoeff: bool)
    returns (r: Result<Scan, JavaError>)
    requires c in OPERATOR_TYPES
    ensures r == OperatorStep(Scan(i, tokens, stack, hasCoeff), c)
  {
    var t := JavaParse.OperatorToken(c);
    var tokens', stack' := PopBinding(tokens, stack, Precedence(t.kind));
    OperatorStepFrom(Scan(i, tokens, stack, hasCoeff), c, tokens', stack');
    if stack' != [] && stack'[|stack'| - 1].kind == NoType {
      return Err(NullType(stack'[|stack'| - 1].show));
    }
    r := Ok(Scan(i + 1, tokens', stack' + [t], hasCoeff));
  }

  /** One turn of the scan loop of `parseInfix`, on the loop's variables. */
  method ScanChar(infix: string, i: nat, tokens: seq<JToken>, stack: seq<JToken>, hasCoeff: bool)
    returns (r: Result<Scan, JavaError>)
    requires i < |infix|
    ensures r == Step(infix, Scan(i, tokens, stack, hasCoeff))
  {
    var curChar := infix[i];
    if curChar == ' ' {
      r := Ok(Scan(i + 1, tokens, stack, hasCoeff));
    } else if curChar == 'x' {
      var stack' := if hasCoeff then stack + [JavaParse.MULTIPLY_TOKEN] else stack;
      r := Ok(Scan(i + 1, tokens + [JavaParse.VARIABLE_TOKEN], stack', false));
    } else if IsLetter(curChar) {
      var found := LookupName(infix, i);
      if found.Err? {
        return Err(found.error);
      }
      var name := infix[i..i + found.value];
      r := Ok(Scan(i + found.value, tokens + [JavaParse.FunctionToken(name)], stack, hasCoeff));
    } else if Numeric.IsDigitChar(curChar) {
      var next := ReadDigit(infix, i, tokens, stack, hasCoeff);
      r := Ok(next);
    } else if curChar == '(' {
      r := Ok(Scan(i + 1, tokens, stack + [JavaParse.OPEN_TOKEN], hasCoeff));
    } else if curChar == ')' {
      r := ReadClose(i, tokens, stack, hasCoeff);
    } else if curChar == '.' {
      r := Ok(Scan(i + 1, tokens + [JavaParse.DECIMAL_TOKEN], stack, hasCoeff));
    } else if curChar in OPERATOR_TYPES {
      r := ReadOperator(curChar, i, tokens, stack, hasCoeff);
    } else if stack == [] {
      r := Ok(Scan(i + 1, tokens, [NullToken(curChar)], hasCoeff));
    } else {
      r := Err(NullType([curChar]));
    }
  }

  /** `parseInfix(infix)`. */
  method ParseInfix(infix: string) returns (r: Result<seq<JToken>, JavaError>)
    ensures r == Parsed(infix)
  {
    var tokens: seq<JToken> := [];
    var stack: seq<JToken> := [];
    var hasCoeff := false;
    var i: nat := 0;
    while i < |infix|
      invariant i <= |infix|
      invariant Run(infix, Scan(i, tokens, stack, hasCoeff)) == Parsed(infix)
      decreases |infix| - i
    {
      ghost var st := Scan(i, tokens, stack, hasCoeff);
      var next := ScanChar(infix, i, tokens, stack, hasCoeff);
      if next.Err? {
        RunThrows(infix, st, next.error);
        return Err(next.error);
      }
      RunStep(infix, st, next.value);
      i, tokens, stack, hasCoeff := next.value.i, next.value.tokens, next.value.stack, next.value.hasCoeff;
    }
    r := DrainStack(tokens, stack);
  }

  // buildTree

  /** The loop of `buildTree(ts)` from index `i` with the node `stack`
      (top last): anything but an operator is a leaf; an operator pops its
      right and then its left child; the final `pop` returns the top. */
  function BuiltFrom(ts: seq<JToken>, i: nat, stack: seq<JavaEval.JTree>): Result<JavaEval.JTree, JavaError>
    decreases |ts| - i
  {
    if i >= |ts| then (if stack == [] then Err(EmptyStack) else Ok(stack[|stack| - 1]))
    else
      var t := ts[i];
      if !IsOperatorType(t.kind) then BuiltFrom(ts, i + 1, stack + [JavaEval.Node(t, JavaEval.Nil, JavaEval.Nil)])
      else if |stack| < 2 then Err(EmptyStack)
      else
        var n := |stack|;
        BuiltFrom(ts, i + 1, stack[..n - 2] + [JavaEval.Node(t, stack[n - 2], stack[n - 1])])
  }

  /** What `buildTree(ts)` returns or throws. */
  function Built(ts: seq<JToken>): Result<JavaEval.JTree, JavaError> {
    BuiltFrom(ts, 0, [])
  }

  /** `buildTree`: the node stack is a sequence, top last. */
  method BuildTree(ts: seq<JToken>) returns (r: Result<JavaEval.JTree, JavaError>)
    ensures r == Built(ts)
  {
    var stack: seq<JavaEval.JTree> := [];
    var i: nat := 0;
    while i < |ts|
      invariant i <= |ts|
      invariant BuiltFrom(ts, i, stack) == Built(ts)
      decreases |ts| - i
    {
      var t := ts[i];
      if !IsOperatorType(t.kind) {
        stack := stack + [JavaEval.Node(t, JavaEval.Nil, JavaEval.Nil)];
      } else {
        var n := |stack|;
        if n < 2 {
          return Err(EmptyStack);
        }
        var right := stack[n - 1];
        var left := stack[n - 2];
        stack := stack[..n - 2] + [JavaEval.Node(t, left, right)];
      }
      i := i + 1;
    }
    if stack == [] {
      return Err(EmptyStack);
    }
    r := Ok(stack[|stack| - 1]);
  }

  /** Operators have two children and every other token is a childless
      leaf, at every depth. */
  predicate Shaped(tree: JavaEval.JTree) {
    match tree
    case Nil => false
    case Node(t, l, r) =>
      if IsOperatorType(t.kind) then Shaped(l) && Shaped(r)
      else l == JavaEval.Nil && r == JavaEval.Nil
  }

  lemma {:induction false} BuiltFromShaped(ts: seq<JToken>, i: nat, stack: seq<JavaEval.JTree>)
    requires forall k :: 0 <= k < |stack| ==> Shaped(stack[k])
    ensures BuiltFrom(ts, i, stack).Ok? ==> Shaped(BuiltFrom(ts, i, stack).value)
    decreases |ts| - i
  {
    if i < |ts| {
      var t := ts[i];
      var n := |stack|;
      if !IsOperatorType(t.kind) {
        var st := stack + [JavaEval.Node(t, JavaEval.Nil, JavaEval.Nil)];
        assert forall k :: 0 <= k < n ==> st[k] == stack[k];
        BuiltFromShaped(ts, i + 1, st);
      } else if n >= 2 {
        var st := stack[..n - 2] + [JavaEval.Node(t, stack[n - 2], stack[n - 1])];
        assert forall k :: 0 <= k < n - 2 ==> st[k] == stack[k];
        BuiltFromShaped(ts, i + 1, st);
      }
    }
  }

  /** Every token that is not an operator, a SPACE, a DECIMAL, a single
      digit or a function included, becomes a leaf, and every operator a
      node over two subtrees. */
  lemma BuiltShaped(ts: seq<JToken>)
    ensures Built(ts).Ok? ==> Shaped(Built(ts).value)
  {
    BuiltFromShaped(ts, 0, []);
  }

  lemma {:induction false} BuiltFromSpells(ts: seq<JToken>, i: nat, stack: seq<JavaEval.JTree>)
    requires i <= |ts| && JavaEval.Flat(stack) == ts[..i]
    ensures var r := BuiltFrom(ts, i, stack);
      r.Ok? ==> (|JavaEval.Postorder(r.value)| <= |ts|
                 && ts[|ts| - |JavaEval.Postorder(r.value)|..] == JavaEval.Postorder(r.value))
    decreases |ts| - i
  {
    var n := |stack|;
    if i == |ts| {
      if n > 0 {
        assert ts == ts[..i];
        JavaEval.SuffixOf(JavaEval.Flat(stack[..n - 1]), JavaEval.Postorder(stack[n - 1]), ts);
      }
    } else {
      var t := ts[i];
      assert ts[..i + 1] == ts[..i] + [t];
      if !IsOperatorType(t.kind) {
        JavaEval.FlatPushLeaf(stack, t);
        BuiltFromSpells(ts, i + 1, stack + [JavaEval.Node(t, JavaEval.Nil, JavaEval.Nil)]);
      } else if n >= 2 {
        JavaEval.FlatCombine(stack, t);
        BuiltFromSpells(ts, i + 1, stack[..n - 2] + [JavaEval.Node(t, stack[n - 2], stack[n - 1])]);
      }
    }
  }

  /** The tree `buildTree` returns spells the end of the list in postfix
      order: its right child was popped first, so the left child holds the
      earlier tokens. */
  lemma BuiltSpells(ts: seq<JToken>)
    ensures Built(ts).Ok? ==>
      |JavaEval.Postorder(Built(ts).value)| <= |ts|
      && ts[|ts| - |JavaEval.Postorder(Built(ts).value)|..] == JavaEval.Postorder(Built(ts).value)
  {
    BuiltFromSpells(ts, 0, []);
  }

  /** An operator with fewer than two nodes below it, or an empty list,
      pops an empty stack. */
  lemma BuildUnderflow(a: JToken, op: JToken)
    requires !IsOperatorType(a.kind) && IsOperatorType(op.kind)
    ensures Built([]) == Err(EmptyStack)
    ensures Built([op]) == Err(EmptyStack)
    ensures Built([a, op]) == Err(EmptyStack)
  {
    var leaf := JavaEval.Node(a, JavaEval.Nil, JavaEval.Nil);
    assert BuiltFrom([a, op], 0, []) == BuiltFrom([a, op], 1, [leaf]);
    assert BuiltFrom([a, op], 1, [leaf]) == Err(EmptyStack);
  }

  lemma {:induction false} BuiltFromLastLeaf(ts: seq<JToken>, i: nat, stack: seq<JavaEval.JTree>)
    requires i < |ts| && !IsOperatorType(ts[|ts| - 1].kind)
    ensures BuiltFrom(ts, i, stack).Ok? ==>
      BuiltFrom(ts, i, stack).value == JavaEval.Node(ts[|ts| - 1], JavaEval.Nil, JavaEval.Nil)
    decreases |ts| - i
  {
    var t := ts[i];
    if i + 1 < |ts| {
      var n := |stack|;
      if !IsOperatorType(t.kind) {
        BuiltFromLastLeaf(ts, i + 1, stack + [JavaEval.Node(t, JavaEval.Nil, JavaEval.Nil)]);
      } else if n >= 2 {
        BuiltFromLastLeaf(ts, i + 1, stack[..n - 2] + [JavaEval.Node(t, stack[n - 2], stack[n - 1])]);
      }
    }
  }

  /** The final `pop` returns the top node only, so a list that ends in a
      token that is not an operator builds that token's leaf, whatever
      comes before it. */
  lemma BuiltLastLeaf(ts: seq<JToken>)
    requires ts != [] && !IsOperatorType(ts[|ts| - 1].kind)
    ensures Built(ts).Ok? ==> Built(ts).value == JavaEval.Node(ts[|ts| - 1], JavaEval.Nil, JavaEval.Nil)
  {
    BuiltFromLastLeaf(ts, 0, []);
  }

  /** A `null`-typed token in a successful parse is the last token, and a
      tree the constructor builds from that parse is that token's leaf
      alone. (An operator before it can still underflow, as in `(-)#`.) */
  lemma NullTokenIsTheTree(infix: string, k: nat)
    requires Parsed(infix).Ok? && k < |Parsed(infix).value| && Parsed(infix).value[k].kind == NoType
    ensures k == |Parsed(infix).value| - 1
    ensures var ts := Parsed(infix).value;
      Built(ts).Ok? ==> Built(ts).value == JavaEval.Node(ts[k], JavaEval.Nil, JavaEval.Nil)
  {
    ParsedNullLast(infix);
    BuiltLastLeaf(Parsed(infix).value);
  }

  // toString

  /** The glyphs of a token list, in order. */
  function Shown(ts: seq<JToken>): string {
    if ts == [] then [] else Shown(ts[..|ts| - 1]) + ts[|ts| - 1].show
  }

  /** `toString`: the postfix tokens' glyphs, concatenated. */
  method ToString(tokens: seq<JToken>) returns (ret: string)
    ensures ret == Shown(tokens)
  {
    ret := "";
    var i := 0;
    while i < |tokens|
      invariant i <= |tokens| && ret == Shown(tokens[..i])
    {
      assert tokens[..i + 1][..i] == tokens[..i];
      ret := ret + tokens[i].show;
      i := i + 1;
    }
    assert tokens[..i] == tokens;
  }

  /** The glyphs of two lists are the glyphs of each, in order. */
  lemma {:induction false} ShownAppend(a: seq<JToken>, b: seq<JToken>)
    ensures Shown(a + b) == Shown(a) + Shown(b)
    decreases |b|
  {
    if b != [] {
      var n := |b|;
      assert (a + b)[..|a + b| - 1] == a + b[..n - 1];
      assert (a + b)[|a + b| - 1] == b[n - 1];
      ShownAppend(a, b[..n - 1]);
    } else {
      assert a + b == a;
    }
  }

  /** A list whose tokens each show one glyph shows one character per
      token, in order. */
  lemma {:induction false} ShownSingles(ts: seq<JToken>)
    requires forall k :: 0 <= k < |ts| ==> |ts[k].show| == 1
    ensures |Shown(ts)| == |ts|
    ensures forall k :: 0 <= k < |ts| ==> Shown(ts)[k] == ts[k].show[0]
  {
    if ts != [] {
      var n := |ts|;
      ShownSingles(ts[..n - 1]);
      assert ts[n - 1].show == [ts[n - 1].show[0]];
    }
  }
}

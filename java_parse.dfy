/** `parseInfix` of src/tree/ExpressionTree.java: a character-level
    shunting-yard that turns an infix string into postfix tokens in one pass.

    Besides the output `tokens` and the operator `stack` it keeps a `sublist`
    of the tokens read while a function's parenthesis is open (and of every
    number separator). That one list is the `partial` of every function
    token and is never cleared, so when the scan ends each function holds
    the argument tokens of all the functions. */
module JavaParse {
  import opened Outcomes
  import opened Stacks
  import opened JavaTypes
  import Numeric

  const SPACE_TOKEN := JToken(Space, None, [], " ")
  const OPEN_TOKEN := JToken(OpenParenthesis, None, [], "(")
  const DECIMAL_TOKEN := JToken(Decimal, None, [], ".")
  const VARIABLE_TOKEN := JToken(Variable, None, [], "x")
  const MULTIPLY_TOKEN := JToken(Multiplication, None, [], "*")
  const E_TOKEN := JToken(E, Some(Numeric.E_VALUE), [], "e")

  /** The token of a digit character: its type, its value and its glyph. */
  function DigitToken(c: char): (t: JToken)
    requires Numeric.IsDigitChar(c)
    ensures IsDigitType(t.kind) && OneGlyph(t) && t.show == [c]
  {
    JToken(DigitType(c), Some(Numeric.DigitValue(c) as real), [], [c])
  }

  /** The token of the function called `name`, its argument not yet read. */
  function FunctionToken(name: string): (t: JToken)
    requires name in FUNCTION_TYPES
    ensures IsFunctionType(t.kind) && t.partial == [] && t.show == name
  {
    FunctionNames();
    JToken(FUNCTION_TYPES[name], None, [], name)
  }

  /** The token of the operator glyph `c`. */
  function OperatorToken(c: char): (t: JToken)
    requires c in OPERATOR_TYPES
    ensures IsOperatorType(t.kind) && t.show == [c]
  {
    JToken(OPERATOR_TYPES[c], None, [], [c])
  }

  /** The scan's variables after reading `infix[..i]`. */
  datatype Scan = Scan(i: nat, tokens: seq<JToken>, stack: seq<JToken>, sublist: seq<JToken>,
                       functionParenthesis: bool, hasCoeff: bool)

  const START := Scan(0, [], [], [], false, false)

  /** Every function token holds the one shared sublist as its `partial`:
      the list each of them was given is the same object, so each sees
      all that was added to it by the end of the scan. */
  function Shared(tokens: seq<JToken>, sublist: seq<JToken>): (r: seq<JToken>)
    ensures |r| == |tokens|
    ensures forall k :: 0 <= k < |r| ==>
      r[k] == if IsFunctionType(tokens[k].kind) then tokens[k].(partial := sublist) else tokens[k]
  {
    seq(|tokens|, k requires 0 <= k < |tokens| =>
      if IsFunctionType(tokens[k].kind) then tokens[k].(partial := sublist) else tokens[k])
  }

  /** The function-name lookup from `infix[i]`, trying `j` characters and
      then longer ones: `substring` fails past the end of the string, and a
      name longer than four characters is unknown. */
  function NameLength(s: string, i: nat, j: nat): (r: Result<nat, JavaError>)
    requires 2 <= j <= 5
    ensures r.Ok? ==> j <= r.value <= 4 && i + r.value <= |s| && s[i..i + r.value] in FUNCTION_TYPES
    decreases 5 - j
  {
    if i + j > |s| then Err(IndexOutOfBounds)
    else if j > 4 then Err(UnknownFunction(s[i..i + j]))
    else if s[i..i + j] in FUNCTION_TYPES then Ok(j)
    else NameLength(s, i, j + 1)
  }

  /** The `x` branch: a pending coefficient pushes a multiplication first. */
  function VariableStep(st: Scan): Scan {
    st.(i := st.i + 1,
        stack := if st.hasCoeff then st.stack + [MULTIPLY_TOKEN] else st.stack,
        hasCoeff := false,
        tokens := st.tokens + [VARIABLE_TOKEN],
        sublist := if st.functionParenthesis then st.sublist + [VARIABLE_TOKEN] else st.sublist)
  }

  /** The function branch: the function token goes to the output, and the
      tokens that follow go to the sublist too. */
  function NameStep(st: Scan, name: string): Scan
    requires name in FUNCTION_TYPES
  {
    st.(i := st.i + |name|, tokens := st.tokens + [FunctionToken(name)], functionParenthesis := true)
  }

  /** The function-name branch, with the lookup that may throw. */
  function NameTurn(s: string, st: Scan): (r: Result<Scan, JavaError>)
    ensures r.Ok? ==> st.i < r.value.i <= |s|
  {
    var j :- NameLength(s, st.i, 2);
    Ok(NameStep(st, s[st.i..st.i + j]))
  }

  /** The digit branch: the digit goes to the output (and to the sublist
      inside a function's parenthesis); a following `x` makes it a
      coefficient; a following character that is not `x`, a digit or a
      point ends the number with a SPACE, which goes to the sublist too. */
  function DigitStep(s: string, st: Scan): Scan
    requires st.i < |s| && Numeric.IsDigitChar(s[st.i])
  {
    var d := DigitToken(s[st.i]);
    var next := st.i + 1 < |s|;
    var coeff := next && s[st.i + 1] == 'x';
    var sep := next && s[st.i + 1] != 'x' && !Numeric.IsDigitChar(s[st.i + 1]) && s[st.i + 1] != '.';
    var spaces := if sep then [SPACE_TOKEN] else [];
    st.(i := st.i + 1, hasCoeff := st.hasCoeff || coeff,
        tokens := st.tokens + [d] + spaces,
        sublist := (if st.functionParenthesis then st.sublist + [d] else st.sublist) + spaces)
  }

  /** The `)` branch: pop to the nearest open parenthesis, then pop that
      (an empty stack there throws), and leave the function's parenthesis. */
  function CloseStep(st: Scan): Result<Scan, JavaError> {
    var m := OpenHeight(st.stack, |st.stack|);
    var popped := Reversed(st.stack[m..]);
    if m == 0 then Err(EmptyStack)
    else Ok(st.(i := st.i + 1, tokens := st.tokens + popped,
                sublist := if st.functionParenthesis then st.sublist + popped else st.sublist,
                stack := st.stack[..m - 1], functionParenthesis := false))
  }

  /** The operator branch: pop what binds at least as tightly, then push. */
  function OperatorStep(st: Scan, c: char): Scan
    requires c in OPERATOR_TYPES
  {
    var t := OperatorToken(c);
    var m := BindingHeight(st.stack, Precedence(t.kind), |st.stack|);
    st.(i := st.i + 1, tokens := st.tokens + Reversed(st.stack[m..]),
        stack := st.stack[..m] + [t])
  }

  /** One turn of the scan loop, from `infix[st.i]`. A letter other than `x`
      and `e` always starts a function name, so the source's `pi` branch is
      never reached; a character with no operator entry is reported here. */
  function Step(s: string, st: Scan): (r: Result<Scan, JavaError>)
    requires st.i < |s|
    ensures r.Ok? ==> st.i < r.value.i <= |s|
  {
    var c := s[st.i];
    if c == ' ' then Ok(st.(i := st.i + 1))
    else if c == 'x' then Ok(VariableStep(st))
    else if IsLetter(c) && c != 'e' then NameTurn(s, st)
    else if Numeric.IsDigitChar(c) then Ok(DigitStep(s, st))
    else if c == '(' then Ok(st.(i := st.i + 1, stack := st.stack + [OPEN_TOKEN]))
    else SymbolStep(c, st)
  }

  /** The rest of the turn: a character that is neither a space, a letter,
      a digit nor an open parenthesis. */
  function SymbolStep(c: char, st: Scan): (r: Result<Scan, JavaError>)
    ensures r.Ok? ==> r.value.i == st.i + 1
  {
    if c == ')' then CloseStep(st)
    else if c == '.' then Ok(st.(i := st.i + 1, tokens := st.tokens + [DECIMAL_TOKEN]))
    else if c == 'e' then Ok(st.(i := st.i + 1, tokens := st.tokens + [E_TOKEN]))
    else if c in OPERATOR_TYPES then Ok(OperatorStep(st, c))
    else Err(NullType([c]))
  }

  /** The end of the scan: the last sublist goes to its function and the
      stack is drained. */
  function Finish(st: Scan): Result<seq<JToken>, JavaError> {
    var out :- Drained(st.stack);
    Ok(Shared(st.tokens, st.sublist) + out)
  }

  /** The scan from `st` on. */
  function Run(s: string, st: Scan): Result<seq<JToken>, JavaError>
    requires st.i <= |s|
    decreases |s| - st.i
  {
    if st.i == |s| then Finish(st)
    else
      var next :- Step(s, st);
      Run(s, next)
  }

  /** What `parseInfix(infix)` returns or throws. */
  function Parsed(infix: string): Result<seq<JToken>, JavaError> {
    Run(infix, START)
  }

  /** One successful turn of the scan loop leaves the rest of the scan as it was. */
  lemma RunStep(s: string, st: Scan, next: Scan)
    requires st.i < |s| && Step(s, st) == Ok(next)
    ensures Run(s, st) == Run(s, next)
  {
  }

  /** A turn that throws ends the scan with that exception. */
  lemma RunThrows(s: string, st: Scan, e: JavaError)
    requires st.i < |s| && Step(s, st) == Err(e)
    ensures Run(s, st) == Err(e)
  {
  }

  /** The lookup from `j` characters on returns the first length that
      names a function, and only that one. */
  lemma {:induction false} NameLengthFrom(s: string, i: nat, j: nat, n: nat)
    requires 2 <= j <= 5
    ensures NameLength(s, i, j) == Ok(n) <==>
      j <= n <= 4 && i + n <= |s| && s[i..i + n] in FUNCTION_TYPES
      && forall k {:trigger s[i..i + k]} :: j <= k < n ==> s[i..i + k] !in FUNCTION_TYPES
    decreases 5 - j
  {
    if i + j > |s| || j > 4 || s[i..i + j] in FUNCTION_TYPES {
    } else {
      NameLengthFrom(s, i, j + 1, n);
    }
  }

  /** The name branch reads the shortest function name at `s[i]`: "sinh"
      is read as "sin". */
  lemma NameLengthFirstHit(s: string, i: nat, n: nat)
    ensures NameLength(s, i, 2) == Ok(n) <==>
      2 <= n <= 4 && i + n <= |s| && s[i..i + n] in FUNCTION_TYPES
      && forall k {:trigger s[i..i + k]} :: 2 <= k < n ==> s[i..i + k] !in FUNCTION_TYPES
  {
    NameLengthFrom(s, i, 2, n);
  }

  /** No function name begins with `p`, so a lookup from a `p` throws. */
  lemma {:induction false} LookupFromP(s: string, i: nat, j: nat)
    requires i < |s| && s[i] == 'p' && 2 <= j <= 5
    ensures NameLength(s, i, j).Err?
    decreases 5 - j
  {
    if i + j <= |s| && j <= 4 {
      var name := s[i..i + j];
      assert name[0] == 'p';
      FunctionNames();
      assert name !in FUNCTION_TYPES;
      LookupFromP(s, i, j + 1);
    }
  }

  /** The source's `pi` branch is unreachable: a `p` starts a function name,
      and the scan throws there. */
  lemma PiRejected(s: string, st: Scan)
    requires st.i < |s| && s[st.i] == 'p'
    ensures Run(s, st).Err?
  {
    LookupFromP(s, st.i, 2);
    assert Step(s, st).Err?;
  }

  /** A character with no branch and no operator entry throws. */
  lemma UnknownCharacter(s: string, st: Scan)
    requires st.i < |s| && !IsLetter(s[st.i]) && !Numeric.IsDigitChar(s[st.i])
    requires s[st.i] !in {' ', '(', ')', '.'} && s[st.i] !in OPERATOR_TYPES
    ensures Run(s, st) == Err(NullType([s[st.i]]))
  {
    assert Step(s, st) == Err(NullType([s[st.i]]));
  }

  // One lemma per branch of the turn, to step through concrete scans.

  lemma StepDigit(s: string, st: Scan)
    requires st.i < |s| && Numeric.IsDigitChar(s[st.i])
    ensures Run(s, st) == Run(s, DigitStep(s, st))
  {
    assert Step(s, st) == Ok(DigitStep(s, st));
  }

  lemma StepVariable(s: string, st: Scan)
    requires st.i < |s| && s[st.i] == 'x'
    ensures Run(s, st) == Run(s, VariableStep(st))
  {
    assert Step(s, st) == Ok(VariableStep(st));
  }

  lemma StepSymbol(s: string, st: Scan)
    requires st.i < |s| && !IsLetter(s[st.i]) && !Numeric.IsDigitChar(s[st.i]) && s[st.i] !in {' ', '('}
    ensures SymbolStep(s[st.i], st).Ok? ==> Run(s, st) == Run(s, SymbolStep(s[st.i], st).value)
    ensures SymbolStep(s[st.i], st).Err? ==> Run(s, st) == Err(SymbolStep(s[st.i], st).error)
  {
    assert Step(s, st) == SymbolStep(s[st.i], st);
  }

  lemma StepOpen(s: string, st: Scan)
    requires st.i < |s| && s[st.i] == '('
    ensures Run(s, st) == Run(s, st.(i := st.i + 1, stack := st.stack + [OPEN_TOKEN]))
  {
    assert Step(s, st) == Ok(st.(i := st.i + 1, stack := st.stack + [OPEN_TOKEN]));
  }

  /** A coefficient: `2x` reads as `2 * x`. */
  lemma CoefficientExample(s: string)
    requires s == "2x"
    ensures Parsed(s) == Ok([DigitToken('2'), VARIABLE_TOKEN, MULTIPLY_TOKEN])
  {
    var s1 := Scan(1, [DigitToken('2')], [], [], false, true);
    StepDigit(s, START);
    assert DigitStep(s, START) == s1;
    var s2 := Scan(2, [DigitToken('2'), VARIABLE_TOKEN], [MULTIPLY_TOKEN], [], false, false);
    StepVariable(s, s1);
    assert VariableStep(s1) == s2;
    assert Shared(s2.tokens, []) == s2.tokens;
    DrainMultiply(s, s2);
    assert s2.tokens + [MULTIPLY_TOKEN] == [DigitToken('2'), VARIABLE_TOKEN, MULTIPLY_TOKEN];
  }

  /** The end of a scan that holds only the implicit `*` appends it. */
  lemma DrainMultiply(s: string, st: Scan)
    requires st.i == |s| && st.stack == [MULTIPLY_TOKEN] && Shared(st.tokens, st.sublist) == st.tokens
    ensures Run(s, st) == Ok(st.tokens + [MULTIPLY_TOKEN])
  {
    assert Reversed(st.stack) == [MULTIPLY_TOKEN];
    assert Drained(st.stack) == Ok([MULTIPLY_TOKEN]);
  }

  /** An open parenthesis left on the stack throws "Invalid Expression Format". */
  lemma UnclosedExample(s: string)
    requires s == "(1"
    ensures Parsed(s) == Err(InvalidExpressionFormat)
  {
    var s1 := Scan(1, [], [OPEN_TOKEN], [], false, false);
    StepOpen(s, START);
    var s2 := Scan(2, [DigitToken('1')], [OPEN_TOKEN], [], false, false);
    StepDigit(s, s1);
    assert DigitStep(s, s1) == s2;
    DrainOpen(s, s2);
  }

  /** A scan that ends with an open parenthesis on the stack throws. */
  lemma DrainOpen(s: string, st: Scan)
    requires st.i == |s| && |st.stack| > 0 && st.stack[0].kind == OpenParenthesis
    ensures Run(s, st) == Err(InvalidExpressionFormat)
  {
    assert Drained(st.stack) == Err(InvalidExpressionFormat);
  }

  /** A close parenthesis with no open one pops an empty stack. */
  lemma UnopenedExample(s: string)
    requires s == "1)"
    ensures Parsed(s) == Err(EmptyStack)
  {
    var s1 := Scan(1, [DigitToken('1'), SPACE_TOKEN], [], [SPACE_TOKEN], false, false);
    StepDigit(s, START);
    assert DigitStep(s, START) == s1;
    StepSymbol(s, s1);
  }

  // What the scan produces: every number token shows one glyph

  /** Stack entries are parentheses and operators: no number, no function. */
  predicate Marker(t: JToken) {
    !IsRunType(t.kind) && !IsFunctionType(t.kind)
  }

  /** The tokens and the sublist show one glyph per number token, and the
      stack holds only markers. */
  predicate OneGlyphScan(st: Scan) {
    GlyphTokens(st.tokens) && GlyphTokens(st.sublist)
    && forall k :: 0 <= k < |st.stack| ==> Marker(st.stack[k])
  }

  lemma GlyphsAppend(a: seq<JToken>, b: seq<JToken>)
    requires GlyphTokens(a) && GlyphTokens(b)
    ensures GlyphTokens(a + b)
  {
  }

  /** What is popped off a stack of markers. */
  lemma PoppedMarkers(stack: seq<JToken>, m: nat)
    requires m <= |stack| && forall k :: 0 <= k < |stack| ==> Marker(stack[k])
    ensures var p := Reversed(stack[m..]); GlyphTokens(p) && forall k :: 0 <= k < |p| ==> Marker(p[k])
  {
    var p := Reversed(stack[m..]);
    forall k | 0 <= k < |p| ensures Marker(p[k]) {
      assert p[k] == stack[m..][|p| - 1 - k];
    }
  }

  lemma DigitKeepsGlyphs(s: string, st: Scan)
    requires st.i < |s| && Numeric.IsDigitChar(s[st.i]) && OneGlyphScan(st)
    ensures OneGlyphScan(DigitStep(s, st))
  {
    var d := DigitToken(s[st.i]);
    GlyphsAppend(st.tokens, [d]);
    GlyphsAppend(st.tokens + [d], [SPACE_TOKEN]);
    GlyphsAppend(st.sublist, [d]);
    GlyphsAppend(st.sublist, [SPACE_TOKEN]);
    GlyphsAppend(st.sublist + [d], [SPACE_TOKEN]);
  }

  lemma CloseKeepsGlyphs(st: Scan)
    requires OneGlyphScan(st) && CloseStep(st).Ok?
    ensures OneGlyphScan(CloseStep(st).value)
  {
    var m := OpenHeight(st.stack, |st.stack|);
    PoppedMarkers(st.stack, m);
    var popped := Reversed(st.stack[m..]);
    GlyphsAppend(st.tokens, popped);
    GlyphsAppend(st.sublist, popped);
  }

  lemma OperatorKeepsGlyphs(st: Scan, c: char)
    requires c in OPERATOR_TYPES && OneGlyphScan(st)
    ensures OneGlyphScan(OperatorStep(st, c))
  {
    OperatorTokenGlyphs(st, c);
    OperatorStackMarkers(st, c);
  }

  /** The operators the branch pops show one glyph each. */
  lemma OperatorTokenGlyphs(st: Scan, c: char)
    requires c in OPERATOR_TYPES && OneGlyphScan(st)
    ensures GlyphTokens(OperatorStep(st, c).tokens)
  {
    var m := BindingHeight(st.stack, Precedence(OperatorToken(c).kind), |st.stack|);
    PoppedMarkers(st.stack, m);
    GlyphsAppend(st.tokens, Reversed(st.stack[m..]));
  }

  /** The stack after the branch holds only markers. */
  lemma OperatorStackMarkers(st: Scan, c: char)
    requires c in OPERATOR_TYPES && OneGlyphScan(st)
    ensures forall k :: 0 <= k < |OperatorStep(st, c).stack| ==> Marker(OperatorStep(st, c).stack[k])
  {
    var t := OperatorToken(c);
    var m := BindingHeight(st.stack, Precedence(t.kind), |st.stack|);
    PushMarker(st.stack, m, t);
  }

  lemma PushMarker(stack: seq<JToken>, m: nat, t: JToken)
    requires m <= |stack| && Marker(t) && forall k :: 0 <= k < |stack| ==> Marker(stack[k])
    ensures forall k :: 0 <= k < m + 1 ==> Marker((stack[..m] + [t])[k])
  {
  }

  lemma NameKeepsGlyphs(s: string, st: Scan)
    requires st.i < |s| && OneGlyphScan(st) && NameTurn(s, st).Ok?
    ensures OneGlyphScan(NameTurn(s, st).value)
  {
    var j := NameLength(s, st.i, 2).value;
    GlyphsAppend(st.tokens, [FunctionToken(s[st.i..st.i + j])]);
  }

  /** Every turn of the scan keeps number tokens at one glyph. */
  lemma StepKeepsGlyphs(s: string, st: Scan)
    requires st.i < |s| && OneGlyphScan(st) && Step(s, st).Ok?
    ensures OneGlyphScan(Step(s, st).value)
  {
    var c := s[st.i];
    if c == ' ' {
    } else if c == 'x' {
      GlyphsAppend(st.tokens, [VARIABLE_TOKEN]);
      GlyphsAppend(st.sublist, [VARIABLE_TOKEN]);
    } else if IsLetter(c) && c != 'e' {
      NameKeepsGlyphs(s, st);
    } else if Numeric.IsDigitChar(c) {
      DigitKeepsGlyphs(s, st);
    } else if c == '(' {
    } else if c == ')' {
      CloseKeepsGlyphs(st);
    } else if c == '.' {
      GlyphsAppend(st.tokens, [DECIMAL_TOKEN]);
    } else if c == 'e' {
      GlyphsAppend(st.tokens, [E_TOKEN]);
    } else {
      OperatorKeepsGlyphs(st, c);
    }
  }

  /** The tokens a scan returns, and the argument list of each function
      token among them, show one glyph per number token. */
  predicate OneGlyphOutput(ts: seq<JToken>) {
    GlyphTokens(ts) && forall k :: 0 <= k < |ts| && IsFunctionType(ts[k].kind) ==> GlyphTokens(ts[k].partial)
  }

  lemma {:induction false} RunKeepsGlyphs(s: string, st: Scan)
    requires st.i <= |s| && OneGlyphScan(st)
    ensures Run(s, st).Ok? ==> OneGlyphOutput(Run(s, st).value)
    decreases |s| - st.i
  {
    if st.i == |s| {
      if Finish(st).Ok? {
        var shared := Shared(st.tokens, st.sublist);
        PoppedMarkers(st.stack, 0);
        assert st.stack[0..] == st.stack;
        var out := Finish(st).value;
        assert out == shared + Reversed(st.stack);
        forall k | 0 <= k < |out| ensures OneGlyph(out[k]) && (IsFunctionType(out[k].kind) ==> GlyphTokens(out[k].partial)) {
          if k < |shared| {
            assert out[k] == shared[k];
          } else {
            assert out[k] == Reversed(st.stack)[k - |shared|];
          }
        }
      }
    } else if Step(s, st).Ok? {
      StepKeepsGlyphs(s, st);
      RunKeepsGlyphs(s, Step(s, st).value);
    }
  }

  /** `parseInfix` makes one token per digit and decimal point, in the
      output and in the shared argument list. */
  lemma ParsedOneGlyph(infix: string)
    ensures Parsed(infix).Ok? ==> OneGlyphOutput(Parsed(infix).value)
  {
    RunKeepsGlyphs(infix, START);
  }

  // The method

  /** The name lookup loop: try two characters, then one more at a time. */
  method LookupName(s: string, i: nat) returns (r: Result<nat, JavaError>)
    ensures r == NameLength(s, i, 2)
  {
    var j := 2;
    if i + j > |s| {
      return Err(IndexOutOfBounds);
    }
    var show := s[i..i + j];
    while show !in FUNCTION_TYPES
      invariant 2 <= j <= 4 && i + j <= |s| && show == s[i..i + j]
      invariant NameLength(s, i, j) == NameLength(s, i, 2)
      decreases 4 - j
    {
      j := j + 1;
      if i + j > |s| {
        return Err(IndexOutOfBounds);
      }
      show := s[i..i + j];
      if j > 4 {
        return Err(UnknownFunction(show));
      }
    }
    return Ok(j);
  }

  /** The loop of the `)` branch: pop to the nearest open parenthesis,
      appending to the output, and to the sublist inside a function's
      parenthesis. The stack is `stack[..n]`. */
  method PopToOpen(tokens: seq<JToken>, sublist: seq<JToken>, functionParenthesis: bool, stack: seq<JToken>)
    returns (tokens': seq<JToken>, sublist': seq<JToken>, n: nat)
    ensures n == OpenHeight(stack, |stack|)
    ensures tokens' == tokens + Reversed(stack[n..])
    ensures sublist' == if functionParenthesis then sublist + Reversed(stack[n..]) else sublist
  {
    tokens', sublist' := tokens, sublist;
    n := |stack|;
    assert stack[n..] == [];
    while n > 0 && stack[n - 1].kind != OpenParenthesis
      invariant n <= |stack|
      invariant OpenHeight(stack, |stack|) == OpenHeight(stack, n)
      invariant tokens' == tokens + Reversed(stack[n..])
      invariant sublist' == if functionParenthesis then sublist + Reversed(stack[n..]) else sublist
    {
      var top := stack[n - 1];
      PopBoth(tokens, sublist, functionParenthesis, stack, n, tokens', sublist');
      tokens' := tokens' + [top];
      if functionParenthesis {
        sublist' := sublist' + [top];
      }
      n := n - 1;
    }
  }

  /** One pop of the `)` loop appends the popped token to the output and,
      inside a function's parenthesis, to the sublist. */
  lemma PopBoth(tokens: seq<JToken>, sublist: seq<JToken>, functionParenthesis: bool, stack: seq<JToken>,
                n: nat, tokens': seq<JToken>, sublist': seq<JToken>)
    requires 0 < n <= |stack| && tokens' == tokens + Reversed(stack[n..])
    requires sublist' == if functionParenthesis then sublist + Reversed(stack[n..]) else sublist
    requires stack[n - 1].kind != OpenParenthesis
    ensures OpenHeight(stack, n) == OpenHeight(stack, n - 1)
    ensures tokens' + [stack[n - 1]] == tokens + Reversed(stack[n - 1..])
    ensures functionParenthesis ==> sublist' + [stack[n - 1]] == sublist + Reversed(stack[n - 1..])
    ensures !functionParenthesis ==> sublist' == sublist
  {
    PopStep(tokens, tokens', stack, n);
    if functionParenthesis {
      PopStep(sublist, sublist', stack, n);
    }
  }

  /** The function-name branch of the scan loop. */
  method ReadName(infix: string, i: nat, tokens: seq<JToken>, stack: seq<JToken>, sublist: seq<JToken>,
                  functionParenthesis: bool, hasCoeff: bool)
    returns (r: Result<Scan, JavaError>)
    ensures r == NameTurn(infix, Scan(i, tokens, stack, sublist, functionParenthesis, hasCoeff))
  {
    var found := LookupName(infix, i);
    if found.Err? {
      return Err(found.error);
    }
    var tokens' := tokens + [FunctionToken(infix[i..i + found.value])];
    r := Ok(Scan(i + found.value, tokens', stack, sublist, true, hasCoeff));
  }

  /** The digit branch of the scan loop. */
  method ReadDigit(infix: string, i: nat, tokens: seq<JToken>, stack: seq<JToken>, sublist: seq<JToken>,
                   functionParenthesis: bool, hasCoeff: bool)
    returns (r: Scan)
    requires i < |infix| && Numeric.IsDigitChar(infix[i])
    ensures r == DigitStep(infix, Scan(i, tokens, stack, sublist, functionParenthesis, hasCoeff))
  {
    var tokens', sublist', hasCoeff' := tokens, sublist, hasCoeff;
    var separator := false;
    if i + 1 < |infix| {
      if infix[i + 1] == 'x' {
        hasCoeff' := true;
      } else if !Numeric.IsDigitChar(infix[i + 1]) && infix[i + 1] != '.' {
        separator := true;
      }
    }
    var d := DigitToken(infix[i]);
    tokens' := tokens' + [d];
    if functionParenthesis {
      sublist' := sublist' + [d];
    }
    if separator {
      tokens' := tokens' + [SPACE_TOKEN];
      sublist' := sublist' + [SPACE_TOKEN];
    }
    r := Scan(i + 1, tokens', stack, sublist', functionParenthesis, hasCoeff');
  }

  /** The `)` branch of the scan loop. */
  method ReadClose(i: nat, tokens: seq<JToken>, stack: seq<JToken>, sublist: seq<JToken>,
                   functionParenthesis: bool, hasCoeff: bool)
    returns (r: Result<Scan, JavaError>)
    ensures r == CloseStep(Scan(i, tokens, stack, sublist, functionParenthesis, hasCoeff))
  {
    var tokens', sublist', n := PopToOpen(tokens, sublist, functionParenthesis, stack);
    if n == 0 {
      return Err(EmptyStack);
    }
    r := Ok(Scan(i + 1, tokens', stack[..n - 1], sublist', false, hasCoeff));
  }

  /** The operator branch of the scan loop. */
  method ReadOperator(c: char, i: nat, tokens: seq<JToken>, stack: seq<JToken>, sublist: seq<JToken>,
                      functionParenthesis: bool, hasCoeff: bool)
    returns (r: Scan)
    requires c in OPERATOR_TYPES
    ensures r == OperatorStep(Scan(i, tokens, stack, sublist, functionParenthesis, hasCoeff), c)
  {
    var t := OperatorToken(c);
    var tokens', stack' := PopBinding(tokens, stack, Precedence(t.kind));
    r := Scan(i + 1, tokens', stack' + [t], sublist, functionParenthesis, hasCoeff);
  }

  /** One turn of the scan loop of `parseInfix`, on the loop's variables. */
  method ScanChar(infix: string, i: nat, tokens: seq<JToken>, stack: seq<JToken>, sublist: seq<JToken>,
                  functionParenthesis: bool, hasCoeff: bool)
    returns (r: Result<Scan, JavaError>)
    requires i < |infix|
    ensures r == Step(infix, Scan(i, tokens, stack, sublist, functionParenthesis, hasCoeff))
  {
    var curChar := infix[i];
    if curChar == ' ' {
      r := Ok(Scan(i + 1, tokens, stack, sublist, functionParenthesis, hasCoeff));
    } else if curChar == 'x' {
      var stack', hasCoeff' := stack, hasCoeff;
      if hasCoeff {
        stack' := stack + [MULTIPLY_TOKEN];
        hasCoeff' := false;
      }
      var sublist' := if functionParenthesis then sublist + [VARIABLE_TOKEN] else sublist;
      r := Ok(Scan(i + 1, tokens + [VARIABLE_TOKEN], stack', sublist', functionParenthesis, hasCoeff'));
    } else if IsLetter(curChar) && curChar != 'e' {
      r := ReadName(infix, i, tokens, stack, sublist, functionParenthesis, hasCoeff);
    } else if Numeric.IsDigitChar(curChar) {
      var next := ReadDigit(infix, i, tokens, stack, sublist, functionParenthesis, hasCoeff);
      r := Ok(next);
    } else if curChar == '(' {
      r := Ok(Scan(i + 1, tokens, stack + [OPEN_TOKEN], sublist, functionParenthesis, hasCoeff));
    } else {
      r := ScanSymbol(curChar, i, tokens, stack, sublist, functionParenthesis, hasCoeff);
    }
  }

  /** The turns of the scan loop for the other characters. */
  method ScanSymbol(curChar: char, i: nat, tokens: seq<JToken>, stack: seq<JToken>, sublist: seq<JToken>,
                    functionParenthesis: bool, hasCoeff: bool)
    returns (r: Result<Scan, JavaError>)
    ensures r == SymbolStep(curChar, Scan(i, tokens, stack, sublist, functionParenthesis, hasCoeff))
  {
    if curChar == ')' {
      r := ReadClose(i, tokens, stack, sublist, functionParenthesis, hasCoeff);
    } else if curChar == '.' {
      r := Ok(Scan(i + 1, tokens + [DECIMAL_TOKEN], stack, sublist, functionParenthesis, hasCoeff));
    } else if curChar == 'e' {
      r := Ok(Scan(i + 1, tokens + [E_TOKEN], stack, sublist, functionParenthesis, hasCoeff));
    } else if curChar in OPERATOR_TYPES {
      var next := ReadOperator(curChar, i, tokens, stack, sublist, functionParenthesis, hasCoeff);
      r := Ok(next);
    } else {
      r := Err(NullType([curChar]));
    }
  }

  /** `parseInfix(infix)`. */
  method ParseInfix(infix: string) returns (r: Result<seq<JToken>, JavaError>)
    ensures r == Parsed(infix)
  {
    var tokens: seq<JToken> := [];
    var stack: seq<JToken> := [];
    var sublist: seq<JToken> := [];
    var functionParenthesis := false;
    var hasCoeff := false;
    var i: nat := 0;
    while i < |infix|
      invariant i <= |infix|
      invariant Run(infix, Scan(i, tokens, stack, sublist, functionParenthesis, hasCoeff)) == Parsed(infix)
      decreases |infix| - i
    {
      ghost var st := Scan(i, tokens, stack, sublist, functionParenthesis, hasCoeff);
      var next := ScanChar(infix, i, tokens, stack, sublist, functionParenthesis, hasCoeff);
      if next.Err? {
        RunThrows(infix, st, next.error);
        return Err(next.error);
      }
      RunStep(infix, st, next.value);
      i, tokens, stack, sublist := next.value.i, next.value.tokens, next.value.stack, next.value.sublist;
      functionParenthesis, hasCoeff := next.value.functionParenthesis, next.value.hasCoeff;
    }
    tokens := Shared(tokens, sublist);
    r := DrainStack(tokens, stack);
  }
}

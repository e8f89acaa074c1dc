/** Integer cases of the operation tests (src/tests/OperationTests.java),
    followed through the whole constructor of src/tree/ExpressionTree.java:
    `parseInfix`, `concatenateExpression`, the passes over the shared
    argument list and `buildTree`, then `solveRec` on the tree. `solve`
    rounds the value with `DecimalFormat("#.###")`, which leaves these
    integers as they are. */
module JavaExamples {
  import opened Outcomes
  import opened Stacks
  import opened JavaTypes
  import JavaParse
  import JavaConcat
  import JavaEval
  import Numeric

  /** A leaf of the tree. */
  function Leaf(t: JToken): JavaEval.JTree {
    JavaEval.Node(t, JavaEval.Nil, JavaEval.Nil)
  }

  function Digit(c: char): JToken
    requires Numeric.IsDigitChar(c)
  {
    JavaParse.DigitToken(c)
  }

  const SP := JavaParse.SPACE_TOKEN
  const ADD := JToken(Addition, None, [], "+")
  const MUL := JToken(Multiplication, None, [], "*")
  const DIV := JToken(Division, None, [], "/")
  const POW := JToken(Exp, None, [], "^")

  // Generic steps

  /** With no function token, the constructor's passes over the shared list
      change nothing and no token takes the list. */
  lemma {:induction false} NoFunctionPasses(ts: seq<JToken>, i: nat, shared: seq<JToken>)
    requires forall k :: 0 <= k < |ts| ==> !IsFunctionType(ts[k].kind)
    ensures JavaEval.Passes(ts, i, shared) == Ok(shared)
    ensures JavaParse.Shared(ts, shared) == ts
    decreases |ts| - i
  {
    if i < |ts| {
      NoFunctionPasses(ts, i + 1, shared);
    }
  }

  /** A space is skipped. */
  lemma SkipSpace(s: string, st: JavaParse.Scan)
    requires st.i < |s| && s[st.i] == ' '
    ensures JavaParse.Run(s, st) == JavaParse.Run(s, st.(i := st.i + 1))
  {
    JavaParse.RunStep(s, st, st.(i := st.i + 1));
  }

  /** Outside a function's parenthesis, a digit that another digit follows
      goes to the output alone. */
  lemma DigitInRun(s: string, st: JavaParse.Scan)
    requires st.i + 1 < |s| && Numeric.IsDigitChar(s[st.i]) && Numeric.IsDigitChar(s[st.i + 1])
    requires !st.functionParenthesis
    ensures JavaParse.Run(s, st)
      == JavaParse.Run(s, st.(i := st.i + 1, tokens := st.tokens + [Digit(s[st.i])]))
  {
    JavaParse.StepDigit(s, st);
    assert st.tokens + [Digit(s[st.i])] + [] == st.tokens + [Digit(s[st.i])];
    assert st.sublist + [] == st.sublist;
  }

  /** Outside a function's parenthesis, a digit that a character other than
      a digit, `.` or `x` follows goes to the output with a separator, and
      the separator to the sublist. */
  lemma DigitBeforeSeparator(s: string, st: JavaParse.Scan)
    requires st.i + 1 < |s| && Numeric.IsDigitChar(s[st.i])
    requires !Numeric.IsDigitChar(s[st.i + 1]) && s[st.i + 1] != '.' && s[st.i + 1] != 'x'
    requires !st.functionParenthesis
    ensures JavaParse.Run(s, st)
      == JavaParse.Run(s, st.(i := st.i + 1, tokens := st.tokens + [Digit(s[st.i]), SP], sublist := st.sublist + [SP]))
  {
    JavaParse.StepDigit(s, st);
    assert st.tokens + [Digit(s[st.i])] + [SP] == st.tokens + [Digit(s[st.i]), SP];
  }

  /** Outside a function's parenthesis, the last digit goes to the output
      alone. */
  lemma LastDigit(s: string, st: JavaParse.Scan)
    requires st.i + 1 == |s| && Numeric.IsDigitChar(s[st.i]) && !st.functionParenthesis
    ensures JavaParse.Run(s, st)
      == JavaParse.Run(s, st.(i := st.i + 1, tokens := st.tokens + [Digit(s[st.i])]))
  {
    JavaParse.StepDigit(s, st);
    assert st.tokens + [Digit(s[st.i])] + [] == st.tokens + [Digit(s[st.i])];
    assert st.sublist + [] == st.sublist;
  }

  /** Outside a function's parenthesis, a two-digit number that ends the
      input goes to the output digit by digit. */
  lemma LastTwoDigits(s: string, st: JavaParse.Scan)
    requires st.i + 2 == |s| && Numeric.IsDigitChar(s[st.i]) && Numeric.IsDigitChar(s[st.i + 1])
    requires !st.functionParenthesis
    ensures JavaParse.Run(s, st)
      == JavaParse.Run(s, st.(i := |s|, tokens := st.tokens + [Digit(s[st.i]), Digit(s[st.i + 1])]))
  {
    var mid := st.(i := st.i + 1, tokens := st.tokens + [Digit(s[st.i])]);
    DigitInRun(s, st);
    LastDigit(s, mid);
    assert mid.tokens + [Digit(s[mid.i])] == st.tokens + [Digit(s[st.i]), Digit(s[st.i + 1])];
  }

  /** An operator read on an empty stack is pushed. */
  lemma OperatorOnEmptyStack(s: string, st: JavaParse.Scan, c: char)
    requires st.i < |s| && s[st.i] == c && (Arithmetic(c) || c == '^') && st.stack == []
    ensures JavaParse.Run(s, st)
      == JavaParse.Run(s, st.(i := st.i + 1, stack := [JavaParse.OperatorToken(c)]))
  {
    var t := JavaParse.OperatorToken(c);
    assert BindingHeight([], Precedence(t.kind), 0) == 0;
    assert st.tokens + Reversed([]) == st.tokens;
    assert JavaParse.OperatorStep(st, c) == st.(i := st.i + 1, stack := [t]);
    assert JavaParse.SymbolStep(c, st) == Ok(JavaParse.OperatorStep(st, c));
    JavaParse.StepSymbol(s, st);
  }

  /** At the end of a scan outside every function, the one operator on the
      stack follows the tokens. */
  lemma FinishOne(s: string, st: JavaParse.Scan, op: JToken)
    requires st.i == |s| && st.stack == [op] && op.kind != OpenParenthesis
    requires forall k :: 0 <= k < |st.tokens| ==> !IsFunctionType(st.tokens[k].kind)
    ensures JavaParse.Run(s, st) == Ok(st.tokens + [op])
  {
    assert Reversed([op]) == [op];
    assert Drained([op]) == Ok([op]);
    NoFunctionPasses(st.tokens, 0, st.sublist);
  }

  /** The fusing loop passes over a token outside every run. */
  lemma FuseSkip(ts: seq<JToken>, i: nat, d: string)
    requires i < |ts| && !IsRunType(ts[i].kind)
    ensures JavaConcat.FuseFrom(ts, i, d) == JavaConcat.FuseFrom(ts, i + 1, d)
  {
  }

  /** Inside a run, the loop accumulates the glyph. */
  lemma FuseExtend(ts: seq<JToken>, i: nat, d: string)
    requires i + 1 < |ts| && IsRunType(ts[i].kind) && IsRunType(ts[i + 1].kind)
    ensures JavaConcat.FuseFrom(ts, i, d) == JavaConcat.FuseFrom(ts, i + 1, d + ts[i].show)
  {
  }

  /** At the last token of a run that another token follows, the literal
      replaces the run and the loop goes on after it. */
  lemma FuseClose(ts: seq<JToken>, i: nat, d: string, g: string, lit: JToken)
    requires i + 1 < |ts| && IsRunType(ts[i].kind) && !IsRunType(ts[i + 1].kind)
    requires g == d + ts[i].show && |g| <= i + 1 && JavaConcat.Literal(g) == Ok(lit)
    ensures JavaConcat.FuseFrom(ts, i, d)
      == JavaConcat.FuseFrom(ts[..i + 1 - |g|] + [lit] + ts[i + 1..], i + 2 - |g|, "")
  {
    assert JavaConcat.FuseFrom(ts, i, d) == JavaConcat.FuseTail(ts, i, g);
  }

  /** The literal of a digit string. */
  lemma DigitsLiteral(g: string, v: real)
    requires Numeric.AllDigits(g) && g != [] && v == Numeric.DigitsValue(g) as real
    ensures JavaConcat.Literal(g) == Ok(JavaEval.OperandToken(v, g))
  {
    Numeric.ParseDigits(g);
  }

  /** The operand a digit string fuses to. */
  function Number(g: string): JToken
    requires Numeric.AllDigits(g)
  {
    JavaEval.OperandToken(Numeric.DigitsValue(g) as real, g)
  }

  /** A one-digit run that another token follows fuses to its operand. */
  lemma FuseOne(ts: seq<JToken>, i: nat, c: char)
    requires i + 1 < |ts| && Numeric.IsDigitChar(c) && ts[i] == Digit(c) && !IsRunType(ts[i + 1].kind)
    ensures Numeric.AllDigits([c])
    ensures JavaConcat.FuseFrom(ts, i, "") == JavaConcat.FuseFrom(ts[..i] + [Number([c])] + ts[i + 1..], i + 1, "")
  {
    assert Numeric.AllDigits([c]);
    DigitsLiteral([c], Numeric.DigitsValue([c]) as real);
    FuseClose(ts, i, "", [c], Number([c]));
  }

  /** A two-digit run that another token follows fuses to its operand. */
  lemma FuseTwo(ts: seq<JToken>, i: nat, c: char, d: char)
    requires i + 2 < |ts| && Numeric.IsDigitChar(c) && Numeric.IsDigitChar(d)
    requires ts[i] == Digit(c) && ts[i + 1] == Digit(d) && !IsRunType(ts[i + 2].kind)
    ensures Numeric.AllDigits([c, d])
    ensures JavaConcat.FuseFrom(ts, i, "") == JavaConcat.FuseFrom(ts[..i] + [Number([c, d])] + ts[i + 2..], i + 1, "")
  {
    assert Numeric.AllDigits([c, d]);
    FuseExtend(ts, i, "");
    assert "" + ts[i].show == [c] && [c] + ts[i + 1].show == [c, d];
    DigitsLiteral([c, d], Numeric.DigitsValue([c, d]) as real);
    FuseClose(ts, i + 1, [c], [c, d], Number([c, d]));
    assert i + 1 + 1 - |[c, d]| == i;
  }

  /** The four operators that the tests put between two spaced numbers. */
  predicate Arithmetic(c: char) {
    c == '+' || c == '-' || c == '*' || c == '/'
  }

  /** The value of an operator over two numbers. A division by zero gives a
      result that is not real (`None`), the model's stand-in for the
      infinity or NaN that Java's double division returns. */
  lemma ArithmeticValue(lib: Numeric.MathLib, c: char, u: real, v: real)
    requires Arithmetic(c) || c == '^'
    ensures IsOperatorType(JavaParse.OperatorToken(c).kind)
    ensures var r := JavaEval.Apply2(lib, JavaParse.OperatorToken(c).kind, Some(u), Some(v));
      && (c == '+' ==> r == Some(u + v))
      && (c == '-' ==> r == Some(u - v))
      && (c == '*' ==> r == Some(u * v))
      && (c == '/' ==> r == if v == 0.0 then None else Some(u / v))
      && (c == '^' ==> r == Some(lib.pow(u, v)))
  {
    if c == '+' {
      assert JavaParse.OperatorToken(c).kind == Addition;
    } else if c == '-' {
      assert JavaParse.OperatorToken(c).kind == Subtraction;
    } else if c == '*' {
      assert JavaParse.OperatorToken(c).kind == Multiplication;
      var r := JavaEval.Apply2(lib, Multiplication, Some(u), Some(v));
      assert r.Some?;
      assert r.value == u * v;
    } else if c == '/' {
      assert JavaParse.OperatorToken(c).kind == Division;
    } else {
      assert JavaParse.OperatorToken(c).kind == Exp;
    }
  }

  /** A node of an operator over two numbers evaluates to the operator
      applied to their values. */
  lemma SolvedBinary(lib: Numeric.MathLib, op: JToken, a: JToken, b: JToken, x: real)
    requires IsOperatorType(op.kind) && a.kind == Operand && b.kind == Operand
    requires a.value.Some? && b.value.Some?
    ensures JavaEval.Solved(lib, JavaEval.Node(op, Leaf(a), Leaf(b)), x)
      == Ok(JavaEval.Apply2(lib, op.kind, a.value, b.value))
  {
  }

  /** Two leaves and an operator build the operator's node over them, the
      earlier leaf on the left. */
  lemma BuiltBinary(a: JToken, b: JToken, op: JToken)
    requires !IsOperatorType(a.kind) && !IsFunctionType(a.kind)
    requires !IsOperatorType(b.kind) && !IsFunctionType(b.kind) && IsOperatorType(op.kind)
    ensures JavaEval.Built([a, b, op]) == Ok(JavaEval.Node(op, Leaf(a), Leaf(b)))
  {
    var ts := [a, b, op];
    assert ts[0] == a && ts[1] == b && ts[2] == op;
    var st1 := [Leaf(a)];
    assert [] + [Leaf(a)] == st1;
    assert JavaEval.BuiltFrom(ts, 0, []) == JavaEval.BuiltFrom(ts, 1, st1);
    var st2 := [Leaf(a), Leaf(b)];
    assert st1 + [Leaf(b)] == st2;
    assert JavaEval.BuiltFrom(ts, 1, st1) == JavaEval.BuiltFrom(ts, 2, st2);
    var n := JavaEval.Node(op, Leaf(a), Leaf(b));
    assert st2[..0] + [n] == [n];
    assert JavaEval.BuiltFrom(ts, 2, st2) == JavaEval.BuiltFrom(ts, 3, [n]);
  }

  /** The constructor on a string that parses and fuses to two operands and an
      operator builds that operator's node. */
  lemma ConstructedBinary(s: string, parsed: seq<JToken>, a: JToken, b: JToken, op: JToken)
    requires JavaParse.Parsed(s) == Ok(parsed) && JavaConcat.Concatenated(parsed) == Ok([a, b, op])
    requires a.kind == Operand && b.kind == Operand && IsOperatorType(op.kind)
    ensures JavaEval.Constructed(s) == Ok(JavaEval.Node(op, Leaf(a), Leaf(b)))
  {
    var ts := [a, b, op];
    assert forall k :: 0 <= k < |ts| ==> !IsFunctionType(ts[k].kind);
    NoFunctionPasses(ts, 0, JavaEval.SharedPartial(ts));
    BuiltBinary(a, b, op);
  }

  // Two two-digit numbers: "15 + 40", "30 / 12"

  /** The scan of two two-digit numbers around a spaced operator, up to the
      second number. */
  lemma ParseWideLeft(s: string, a: char, b: char, c: char)
    requires |s| == 7 && Numeric.IsDigitChar(a) && Numeric.IsDigitChar(b) && Arithmetic(c)
    requires s[0] == a && s[1] == b && s[2] == ' ' && s[3] == c
    ensures JavaParse.Run(s, JavaParse.START)
      == JavaParse.Run(s, JavaParse.Scan(4, [Digit(a), Digit(b), SP], [JavaParse.OperatorToken(c)], [SP], false, false))
  {
    var da, db := Digit(a), Digit(b);
    var s0 := JavaParse.START;
    var s1 := JavaParse.Scan(1, [da], [], [], false, false);
    var s2 := JavaParse.Scan(2, [da, db, SP], [], [SP], false, false);
    DigitInRun(s, s0);
    assert s0.tokens + [da] == [da];
    DigitBeforeSeparator(s, s1);
    assert s1.tokens + [db, SP] == [da, db, SP] && s1.sublist + [SP] == [SP];
    SkipSpace(s, s2);
    OperatorOnEmptyStack(s, s2.(i := 3), c);
  }

  /** After the operator of `ab op de`, the space is skipped, the second
      number goes to the output digit by digit, and the drain appends the
      operator. */
  lemma WideLast(s: string, st: JavaParse.Scan, op: JToken)
    requires st.i + 3 == |s| && s[st.i] == ' ' && Numeric.IsDigitChar(s[st.i + 1]) && Numeric.IsDigitChar(s[st.i + 2])
    requires !st.functionParenthesis && st.stack == [op] && IsOperatorType(op.kind) && |st.tokens| == 3
    requires IsDigitType(st.tokens[0].kind) && IsDigitType(st.tokens[1].kind) && st.tokens[2] == SP
    ensures JavaParse.Run(s, st) == Ok(st.tokens + [Digit(s[st.i + 1]), Digit(s[st.i + 2]), op])
  {
    var st1 := st.(i := st.i + 1);
    var tokens := st.tokens + [Digit(s[st.i + 1]), Digit(s[st.i + 2])];
    SkipSpace(s, st);
    LastTwoDigits(s, st1);
    FinishWide(s, st1.(i := |s|, tokens := tokens), op);
    assert tokens + [op] == st.tokens + [Digit(s[st.i + 1]), Digit(s[st.i + 2]), op];
  }

  /** The scan of the same input from the second number to its result. */
  lemma ParseWideTail(s: string, a: char, b: char, c: char, d: char, e: char)
    requires Numeric.IsDigitChar(a) && Numeric.IsDigitChar(b) && Numeric.IsDigitChar(d) && Numeric.IsDigitChar(e)
    requires Arithmetic(c) && s == [a, b, ' ', c, ' ', d, e]
    ensures var op := JavaParse.OperatorToken(c);
      JavaParse.Run(s, JavaParse.Scan(4, [Digit(a), Digit(b), SP], [op], [SP], false, false))
      == Ok([Digit(a), Digit(b), SP, Digit(d), Digit(e), op])
  {
    var op := JavaParse.OperatorToken(c);
    WideLast(s, JavaParse.Scan(4, [Digit(a), Digit(b), SP], [op], [SP], false, false), op);
    assert [Digit(a), Digit(b), SP] + [Digit(s[5]), Digit(s[6]), op] == [Digit(a), Digit(b), SP, Digit(d), Digit(e), op];
  }

  /** The drain after `ab op de` appends the operator. */
  lemma FinishWide(s: string, st: JavaParse.Scan, op: JToken)
    requires st.i == |s| && st.stack == [op] && IsOperatorType(op.kind) && |st.tokens| == 5
    requires IsDigitType(st.tokens[0].kind) && IsDigitType(st.tokens[1].kind) && st.tokens[2] == SP
    requires IsDigitType(st.tokens[3].kind) && IsDigitType(st.tokens[4].kind)
    ensures JavaParse.Run(s, st) == Ok(st.tokens + [op])
  {
    FinishOne(s, st, op);
  }

  /** Two two-digit numbers around a spaced operator parse to the digits, a
      separator after the first number, and the operator last. */
  lemma ParseWide(s: string, a: char, b: char, c: char, d: char, e: char)
    requires Numeric.IsDigitChar(a) && Numeric.IsDigitChar(b) && Numeric.IsDigitChar(d) && Numeric.IsDigitChar(e)
    requires Arithmetic(c) && s == [a, b, ' ', c, ' ', d, e]
    ensures JavaParse.Parsed(s) == Ok([Digit(a), Digit(b), SP, Digit(d), Digit(e), JavaParse.OperatorToken(c)])
  {
    ParseWideLeft(s, a, b, c);
    ParseWideTail(s, a, b, c, d, e);
  }

  lemma FuseTwoNumbers(a: char, b: char, c: char, d: char, op: JToken)
    requires Numeric.IsDigitChar(a) && Numeric.IsDigitChar(b) && Numeric.IsDigitChar(c) && Numeric.IsDigitChar(d)
    requires IsOperatorType(op.kind)
    ensures Numeric.AllDigits([a, b]) && Numeric.AllDigits([c, d])
    ensures JavaConcat.Concatenated([Digit(a), Digit(b), SP, Digit(c), Digit(d), op])
      == Ok([Number([a, b]), Number([c, d]), op])
  {
    assert Numeric.AllDigits([a, b]) && Numeric.AllDigits([c, d]);
    var x, y := Number([a, b]), Number([c, d]);
    FuseTwoDigitsFirst(a, b, Digit(c), Digit(d), op);
    FuseTwoDigitsSecond(x, c, d, op);
    SpacesOut(x, y, op);
  }

  /** The first two-digit run of `ab cd op` fuses. */
  lemma FuseTwoDigitsFirst(a: char, b: char, u: JToken, v: JToken, op: JToken)
    requires Numeric.IsDigitChar(a) && Numeric.IsDigitChar(b)
    ensures Numeric.AllDigits([a, b])
    ensures JavaConcat.FuseFrom([Digit(a), Digit(b), SP, u, v, op], 0, "")
      == JavaConcat.FuseFrom([Number([a, b]), SP, u, v, op], 1, "")
  {
    var ts0 := [Digit(a), Digit(b), SP, u, v, op];
    FuseTwo(ts0, 0, a, b);
    assert ts0[..0] + [Number([a, b])] + ts0[2..] == [Number([a, b]), SP, u, v, op];
  }

  /** The constructor on two two-digit numbers around a spaced operator
      builds the operator's node over the two numbers. */
  lemma ConstructedWide(s: string, a: char, b: char, c: char, d: char, e: char)
    requires Numeric.IsDigitChar(a) && Numeric.IsDigitChar(b) && Numeric.IsDigitChar(d) && Numeric.IsDigitChar(e)
    requires Arithmetic(c) && s == [a, b, ' ', c, ' ', d, e]
    ensures Numeric.AllDigits([a, b]) && Numeric.AllDigits([d, e])
    ensures JavaEval.Constructed(s)
      == Ok(JavaEval.Node(JavaParse.OperatorToken(c), Leaf(Number([a, b])), Leaf(Number([d, e]))))
  {
    var op := JavaParse.OperatorToken(c);
    ParseWide(s, a, b, c, d, e);
    FuseTwoNumbers(a, b, d, e, op);
    ConstructedBinary(s, [Digit(a), Digit(b), SP, Digit(d), Digit(e), op], Number([a, b]), Number([d, e]), op);
  }

  /** Two two-digit numbers around a spaced operator evaluate to the operator
      applied to the two numbers ("15 + 40" to 55, "30 / 12" to 2.5). */
  lemma WideTest(s: string, a: char, b: char, c: char, d: char, e: char, lib: Numeric.MathLib, x: real)
    requires Numeric.IsDigitChar(a) && Numeric.IsDigitChar(b) && Numeric.IsDigitChar(d) && Numeric.IsDigitChar(e)
    requires Arithmetic(c) && s == [a, b, ' ', c, ' ', d, e]
    ensures Numeric.AllDigits([a, b]) && Numeric.AllDigits([d, e])
    ensures JavaEval.Constructed(s).Ok?
    ensures var u, v := Numeric.DigitsValue([a, b]) as real, Numeric.DigitsValue([d, e]) as real;
      JavaEval.Solved(lib, JavaEval.Constructed(s).value, x)
      == Ok(JavaEval.Apply2(lib, JavaParse.OperatorToken(c).kind, Some(u), Some(v)))
  {
    ConstructedWide(s, a, b, c, d, e);
    SolvedBinary(lib, JavaParse.OperatorToken(c), Number([a, b]), Number([d, e]), x);
  }

  // Two one-digit numbers: "5 * 4", "8 / 4"

  /** The scan of a one-digit number, a spaced operator and a one-digit
      number, up to the second number. */
  lemma ParseNarrowLeft(s: string, c: char)
    requires 3 < |s| && Numeric.IsDigitChar(s[0]) && s[1] == ' ' && s[2] == c && Arithmetic(c)
    ensures JavaParse.Run(s, JavaParse.START)
      == JavaParse.Run(s, JavaParse.Scan(3, [Digit(s[0]), SP], [JavaParse.OperatorToken(c)], [SP], false, false))
  {
    var a := Digit(s[0]);
    var s0 := JavaParse.START;
    var s1 := JavaParse.Scan(1, [a, SP], [], [SP], false, false);
    assert JavaParse.Run(s, s0) == JavaParse.Run(s, s1) by {
      DigitBeforeSeparator(s, s0);
      assert s0.tokens + [a, SP] == [a, SP] && s0.sublist + [SP] == [SP];
    }
    SkipSpace(s, s1);
    OperatorOnEmptyStack(s, s1.(i := 2), c);
  }

  /** The same scan from the second number on. */
  lemma ParseNarrowRight(s: string, a: JToken, op: JToken)
    requires |s| == 5 && s[3] == ' ' && Numeric.IsDigitChar(s[4])
    requires !IsFunctionType(a.kind) && a != SP && op.kind != OpenParenthesis
    ensures JavaParse.Run(s, JavaParse.Scan(3, [a, SP], [op], [SP], false, false))
      == Ok([a, SP, Digit(s[4]), op])
  {
    var b := Digit(s[4]);
    var s3 := JavaParse.Scan(3, [a, SP], [op], [SP], false, false);
    SkipSpace(s, s3);
    LastDigit(s, s3.(i := 4));
    assert s3.tokens + [b] == [a, SP, b];
    var s5 := JavaParse.Scan(5, [a, SP, b], [op], [SP], false, false);
    FinishOne(s, s5, op);
    assert s5.tokens + [op] == [a, SP, b, op];
  }

  /** A one-digit number, a spaced operator and a one-digit number parse to
      the two digits, the separator after the first, and the operator. */
  lemma ParseNarrow(s: string, a: char, c: char, b: char)
    requires Numeric.IsDigitChar(a) && Numeric.IsDigitChar(b) && Arithmetic(c)
    requires s == [a, ' ', c, ' ', b]
    ensures JavaParse.Parsed(s) == Ok([Digit(a), SP, Digit(b), JavaParse.OperatorToken(c)])
  {
    ParseNarrowLeft(s, c);
    ParseNarrowRight(s, Digit(a), JavaParse.OperatorToken(c));
  }

  lemma SpacesOut(x: JToken, y: JToken, op: JToken)
    requires x.kind != Space && y.kind != Space && op.kind != Space
    ensures JavaConcat.SpacesRemoved([x, SP, y, op], 0) == [x, y, op]
  {
    var ts := [x, SP, y, op];
    assert JavaConcat.SpacesRemoved(ts, 0) == JavaConcat.SpacesRemoved(ts, 1);
    assert ts[..1] + ts[2..] == [x, y, op];
    assert JavaConcat.SpacesRemoved(ts, 1) == JavaConcat.SpacesRemoved([x, y, op], 2);
    assert JavaConcat.SpacesRemoved([x, y, op], 2) == JavaConcat.SpacesRemoved([x, y, op], 3);
  }

  lemma FuseNarrow(a: char, b: char, op: JToken)
    requires Numeric.IsDigitChar(a) && Numeric.IsDigitChar(b) && IsOperatorType(op.kind)
    ensures Numeric.AllDigits([a]) && Numeric.AllDigits([b])
    ensures JavaConcat.Concatenated([Digit(a), SP, Digit(b), op]) == Ok([Number([a]), Number([b]), op])
  {
    assert Numeric.AllDigits([a]) && Numeric.AllDigits([b]);
    var x, y := Number([a]), Number([b]);
    FuseNarrowFirst(a, Digit(b), op);
    FuseNarrowSecond(x, b, op);
    SpacesOut(x, y, op);
  }

  /** The first one-digit run of `a b op` fuses. */
  lemma FuseNarrowFirst(a: char, u: JToken, op: JToken)
    requires Numeric.IsDigitChar(a)
    ensures Numeric.AllDigits([a])
    ensures JavaConcat.FuseFrom([Digit(a), SP, u, op], 0, "") == JavaConcat.FuseFrom([Number([a]), SP, u, op], 1, "")
  {
    var ts0 := [Digit(a), SP, u, op];
    FuseOne(ts0, 0, a);
    assert ts0[..0] + [Number([a])] + ts0[1..] == [Number([a]), SP, u, op];
  }

  /** After it, the second one-digit run fuses and the operator passes. */
  lemma FuseNarrowSecond(x: JToken, b: char, op: JToken)
    requires Numeric.IsDigitChar(b) && IsOperatorType(op.kind)
    ensures Numeric.AllDigits([b])
    ensures JavaConcat.FuseFrom([x, SP, Digit(b), op], 1, "") == Ok([x, SP, Number([b]), op])
  {
    var ts1 := [x, SP, Digit(b), op];
    var ts2 := [x, SP, Number([b]), op];
    FuseSkip(ts1, 1, "");
    FuseOne(ts1, 2, b);
    assert ts1[..2] + [Number([b])] + ts1[3..] == ts2;
    FuseSkip(ts2, 3, "");
  }

  /** The constructor on a one-digit number, a spaced operator and a
      one-digit number builds the operator's node over the two numbers. */
  lemma ConstructedNarrow(s: string, a: char, c: char, b: char)
    requires Numeric.IsDigitChar(a) && Numeric.IsDigitChar(b) && Arithmetic(c)
    requires s == [a, ' ', c, ' ', b]
    ensures Numeric.AllDigits([a]) && Numeric.AllDigits([b])
    ensures JavaEval.Constructed(s)
      == Ok(JavaEval.Node(JavaParse.OperatorToken(c), Leaf(Number([a])), Leaf(Number([b]))))
  {
    var op := JavaParse.OperatorToken(c);
    ParseNarrow(s, a, c, b);
    FuseNarrow(a, b, op);
    ConstructedBinary(s, [Digit(a), SP, Digit(b), op], Number([a]), Number([b]), op);
  }

  /** A one-digit number, a spaced operator and a one-digit number evaluate
      to the operator applied to the two digits ("5 * 4" to 20, "8 / 4" to 2). */
  lemma NarrowTest(s: string, a: char, c: char, b: char, lib: Numeric.MathLib, x: real)
    requires Numeric.IsDigitChar(a) && Numeric.IsDigitChar(b) && Arithmetic(c)
    requires s == [a, ' ', c, ' ', b]
    ensures JavaEval.Constructed(s).Ok?
    ensures var u, v := Numeric.DigitValue(a) as real, Numeric.DigitValue(b) as real;
      JavaEval.Solved(lib, JavaEval.Constructed(s).value, x)
      == Ok(JavaEval.Apply2(lib, JavaParse.OperatorToken(c).kind, Some(u), Some(v)))
  {
    ConstructedNarrow(s, a, c, b);
    assert Numeric.DigitsValue([a]) == Numeric.DigitValue(a) && Numeric.DigitsValue([b]) == Numeric.DigitValue(b);
    SolvedBinary(lib, JavaParse.OperatorToken(c), Number([a]), Number([b]), x);
  }

  // A one-digit base and a two-digit exponent: "5^10"

  /** The scan of a one-digit number, `^` and a two-digit number, up to the
      exponent. */
  lemma ParsePowerLeft(s: string, a: char)
    requires |s| == 4 && Numeric.IsDigitChar(a) && s[0] == a && s[1] == '^'
    ensures JavaParse.Run(s, JavaParse.START)
      == JavaParse.Run(s, JavaParse.Scan(2, [Digit(a), SP], [POW], [SP], false, false))
  {
    var da := Digit(a);
    var s0 := JavaParse.START;
    DigitBeforeSeparator(s, s0);
    assert s0.tokens + [da, SP] == [da, SP] && s0.sublist + [SP] == [SP];
    OperatorOnEmptyStack(s, JavaParse.Scan(1, [da, SP], [], [SP], false, false), '^');
    assert JavaParse.OperatorToken('^') == POW;
  }

  /** The same scan from the exponent up to the end of the input. */
  lemma ParsePowerRight(s: string, a: JToken, op: JToken)
    requires |s| == 4 && Numeric.IsDigitChar(s[2]) && Numeric.IsDigitChar(s[3])
    ensures JavaParse.Run(s, JavaParse.Scan(2, [a, SP], [op], [SP], false, false))
      == JavaParse.Run(s, JavaParse.Scan(4, [a, SP, Digit(s[2]), Digit(s[3])], [op], [SP], false, false))
  {
    LastTwoDigits(s, JavaParse.Scan(2, [a, SP], [op], [SP], false, false));
    assert [a, SP] + [Digit(s[2]), Digit(s[3])] == [a, SP, Digit(s[2]), Digit(s[3])];
  }

  /** The scan of the same input from the exponent to its result. */
  lemma ParsePowerTail(s: string, a: char, c: char, d: char)
    requires Numeric.IsDigitChar(a) && Numeric.IsDigitChar(c) && Numeric.IsDigitChar(d)
    requires s == [a, '^', c, d]
    ensures JavaParse.Run(s, JavaParse.Scan(2, [Digit(a), SP], [POW], [SP], false, false))
      == Ok([Digit(a), SP, Digit(c), Digit(d), POW])
  {
    var tokens := [Digit(a), SP, Digit(c), Digit(d)];
    ParsePowerRight(s, Digit(a), POW);
    FinishPower(s, JavaParse.Scan(4, tokens, [POW], [SP], false, false));
    assert tokens + [POW] == [Digit(a), SP, Digit(c), Digit(d), POW];
  }

  /** The drain after `a^cd` appends the `^`. */
  lemma FinishPower(s: string, st: JavaParse.Scan)
    requires st.i == |s| && st.stack == [POW] && |st.tokens| == 4
    requires IsDigitType(st.tokens[0].kind) && st.tokens[1] == SP
    requires IsDigitType(st.tokens[2].kind) && IsDigitType(st.tokens[3].kind)
    ensures JavaParse.Run(s, st) == Ok(st.tokens + [POW])
  {
    FinishOne(s, st, POW);
  }

  /** A one-digit number, `^` and a two-digit number parse to the base, a
      separator, the exponent's digits and the operator. */
  lemma ParsePower(s: string, a: char, c: char, d: char)
    requires Numeric.IsDigitChar(a) && Numeric.IsDigitChar(c) && Numeric.IsDigitChar(d)
    requires s == [a, '^', c, d]
    ensures JavaParse.Parsed(s) == Ok([Digit(a), SP, Digit(c), Digit(d), POW])
  {
    ParsePowerLeft(s, a);
    ParsePowerTail(s, a, c, d);
  }

  lemma FuseOneThenTwo(a: char, c: char, d: char, op: JToken)
    requires Numeric.IsDigitChar(a) && Numeric.IsDigitChar(c) && Numeric.IsDigitChar(d)
    requires IsOperatorType(op.kind)
    ensures Numeric.AllDigits([a]) && Numeric.AllDigits([c, d])
    ensures JavaConcat.Concatenated([Digit(a), SP, Digit(c), Digit(d), op])
      == Ok([Number([a]), Number([c, d]), op])
  {
    assert Numeric.AllDigits([a]) && Numeric.AllDigits([c, d]);
    var x, y := Number([a]), Number([c, d]);
    FuseOneFirst(a, Digit(c), Digit(d), op);
    FuseTwoDigitsSecond(x, c, d, op);
    SpacesOut(x, y, op);
  }

  /** The first one-digit run of `a cd op` fuses. */
  lemma FuseOneFirst(a: char, u: JToken, v: JToken, op: JToken)
    requires Numeric.IsDigitChar(a)
    ensures Numeric.AllDigits([a])
    ensures JavaConcat.FuseFrom([Digit(a), SP, u, v, op], 0, "")
      == JavaConcat.FuseFrom([Number([a]), SP, u, v, op], 1, "")
  {
    var ts0 := [Digit(a), SP, u, v, op];
    FuseOne(ts0, 0, a);
    assert ts0[..0] + [Number([a])] + ts0[1..] == [Number([a]), SP, u, v, op];
  }

  /** After it, the two-digit run fuses and the operator passes. */
  lemma FuseTwoDigitsSecond(x: JToken, c: char, d: char, op: JToken)
    requires Numeric.IsDigitChar(c) && Numeric.IsDigitChar(d) && IsOperatorType(op.kind)
    ensures Numeric.AllDigits([c, d])
    ensures JavaConcat.FuseFrom([x, SP, Digit(c), Digit(d), op], 1, "") == Ok([x, SP, Number([c, d]), op])
  {
    var ts1 := [x, SP, Digit(c), Digit(d), op];
    var ts2 := [x, SP, Number([c, d]), op];
    FuseSkip(ts1, 1, "");
    FuseTwo(ts1, 2, c, d);
    assert ts1[..2] + [Number([c, d])] + ts1[4..] == ts2;
    FuseSkip(ts2, 3, "");
  }

  /** The constructor on a one-digit number, `^` and a two-digit number
      builds the power's node over the two numbers. */
  lemma ConstructedPower(s: string, a: char, c: char, d: char)
    requires Numeric.IsDigitChar(a) && Numeric.IsDigitChar(c) && Numeric.IsDigitChar(d)
    requires s == [a, '^', c, d]
    ensures Numeric.AllDigits([a]) && Numeric.AllDigits([c, d])
    ensures JavaEval.Constructed(s) == Ok(JavaEval.Node(POW, Leaf(Number([a])), Leaf(Number([c, d]))))
  {
    ParsePower(s, a, c, d);
    FuseOneThenTwo(a, c, d, POW);
    ConstructedBinary(s, [Digit(a), SP, Digit(c), Digit(d), POW], Number([a]), Number([c, d]), POW);
  }

  /** A one-digit base, `^` and a two-digit exponent evaluate to the host's
      `Math.pow` of the two ("5^10" to `Math.pow(5, 10)`). */
  lemma PowerTest(s: string, a: char, c: char, d: char, lib: Numeric.MathLib, x: real)
    requires Numeric.IsDigitChar(a) && Numeric.IsDigitChar(c) && Numeric.IsDigitChar(d)
    requires s == [a, '^', c, d]
    ensures Numeric.AllDigits([c, d])
    ensures JavaEval.Constructed(s).Ok?
    ensures JavaEval.Solved(lib, JavaEval.Constructed(s).value, x)
      == Ok(Some(lib.pow(Numeric.DigitValue(a) as real, Numeric.DigitsValue([c, d]) as real)))
  {
    ConstructedPower(s, a, c, d);
    assert Numeric.DigitsValue([a]) == Numeric.DigitValue(a);
    SolvedBinary(lib, POW, Number([a]), Number([c, d]), x);
  }


  // A one-digit number, an unspaced operator and a one-digit number: "5^2"

  /** The scan of a digit and an unspaced operator, up to the second digit. */
  lemma ParseTightLeft(s: string, a: char, c: char)
    requires |s| == 3 && Numeric.IsDigitChar(a) && (Arithmetic(c) || c == '^') && s[0] == a && s[1] == c
    ensures JavaParse.Run(s, JavaParse.START)
      == JavaParse.Run(s, JavaParse.Scan(2, [Digit(a), SP], [JavaParse.OperatorToken(c)], [SP], false, false))
  {
    var s0 := JavaParse.START;
    DigitBeforeSeparator(s, s0);
    assert s0.tokens + [Digit(a), SP] == [Digit(a), SP] && s0.sublist + [SP] == [SP];
    OperatorOnEmptyStack(s, JavaParse.Scan(1, [Digit(a), SP], [], [SP], false, false), c);
  }

  /** The same scan from the second digit to its result. */
  lemma ParseTightTail(s: string, a: char, b: char, op: JToken)
    requires |s| == 3 && Numeric.IsDigitChar(a) && Numeric.IsDigitChar(b) && s[2] == b
    requires IsOperatorType(op.kind)
    ensures JavaParse.Run(s, JavaParse.Scan(2, [Digit(a), SP], [op], [SP], false, false))
      == Ok([Digit(a), SP, Digit(b), op])
  {
    var st0 := JavaParse.Scan(2, [Digit(a), SP], [op], [SP], false, false);
    TightLast(s, st0, op);
    assert [Digit(a), SP] + [Digit(s[2]), op] == [Digit(a), SP, Digit(b), op];
  }

  /** The digit that ends `a op b` goes to the output, then the drain
      appends the operator. */
  lemma TightLast(s: string, st: JavaParse.Scan, op: JToken)
    requires st.i + 1 == |s| && Numeric.IsDigitChar(s[st.i]) && !st.functionParenthesis
    requires st.stack == [op] && IsOperatorType(op.kind)
    requires |st.tokens| == 2 && IsDigitType(st.tokens[0].kind) && st.tokens[1] == SP
    ensures JavaParse.Run(s, st) == Ok(st.tokens + [Digit(s[st.i]), op])
  {
    LastDigit(s, st);
    var tokens := st.tokens + [Digit(s[st.i])];
    FinishTight(s, st.(i := st.i + 1, tokens := tokens), op);
    assert tokens + [op] == st.tokens + [Digit(s[st.i]), op];
  }

  /** The drain after `a op b` appends the operator. */
  lemma FinishTight(s: string, st: JavaParse.Scan, op: JToken)
    requires st.i == |s| && st.stack == [op] && IsOperatorType(op.kind)
    requires |st.tokens| == 3 && IsDigitType(st.tokens[0].kind) && st.tokens[1] == SP && IsDigitType(st.tokens[2].kind)
    ensures JavaParse.Run(s, st) == Ok(st.tokens + [op])
  {
    FinishOne(s, st, op);
  }

  /** A digit, an operator and a digit with no spaces parse to the first
      digit, a separator, the second digit and the operator. */
  lemma ParseTight(s: string, a: char, c: char, b: char)
    requires Numeric.IsDigitChar(a) && Numeric.IsDigitChar(b) && (Arithmetic(c) || c == '^')
    requires s == [a, c, b]
    ensures JavaParse.Parsed(s) == Ok([Digit(a), SP, Digit(b), JavaParse.OperatorToken(c)])
  {
    ParseTightLeft(s, a, c);
    ParseTightTail(s, a, b, JavaParse.OperatorToken(c));
  }

  /** The constructor on a digit, an unspaced operator and a digit builds
      the operator's node over the two digits. */
  lemma ConstructedTight(s: string, a: char, c: char, b: char)
    requires Numeric.IsDigitChar(a) && Numeric.IsDigitChar(b) && (Arithmetic(c) || c == '^')
    requires s == [a, c, b]
    ensures Numeric.AllDigits([a]) && Numeric.AllDigits([b])
    ensures JavaEval.Constructed(s)
      == Ok(JavaEval.Node(JavaParse.OperatorToken(c), Leaf(Number([a])), Leaf(Number([b]))))
  {
    var op := JavaParse.OperatorToken(c);
    ParseTight(s, a, c, b);
    FuseNarrow(a, b, op);
    ConstructedBinary(s, [Digit(a), SP, Digit(b), op], Number([a]), Number([b]), op);
  }

  /** A one-digit base, `^` and a one-digit exponent evaluate to the host's
      `Math.pow` of the two ("5^2" to `Math.pow(5, 2)`). */
  lemma TightPowerTest(s: string, a: char, b: char, lib: Numeric.MathLib, x: real)
    requires Numeric.IsDigitChar(a) && Numeric.IsDigitChar(b)
    requires s == [a, '^', b]
    ensures JavaEval.Constructed(s).Ok?
    ensures JavaEval.Solved(lib, JavaEval.Constructed(s).value, x)
      == Ok(Some(lib.pow(Numeric.DigitValue(a) as real, Numeric.DigitValue(b) as real)))
  {
    ConstructedTight(s, a, '^', b);
    assert JavaParse.OperatorToken('^') == POW;
    assert Numeric.DigitsValue([a]) == Numeric.DigitValue(a) && Numeric.DigitsValue([b]) == Numeric.DigitValue(b);
    SolvedBinary(lib, POW, Number([a]), Number([b]), x);
  }

  // A unary minus: "-(100 - -5)"

  const SUB := JToken(Subtraction, None, [], "-")
  const OPEN := JavaParse.OPEN_TOKEN

  /** The leading `-` goes onto the empty stack as a binary operator and the
      `(` on top of it. */
  lemma NegatedOpen(s: string)
    requires |s| == 11 && s[0] == '-' && s[1] == '('
    ensures JavaParse.Run(s, JavaParse.START)
      == JavaParse.Run(s, JavaParse.Scan(2, [], [SUB, OPEN], [], false, false))
  {
    var s1 := JavaParse.Scan(1, [], [SUB], [], false, false);
    assert JavaParse.Run(s, JavaParse.START) == JavaParse.Run(s, s1) by {
      OperatorOnEmptyStack(s, JavaParse.START, '-');
      assert JavaParse.OperatorToken('-') == SUB;
    }
    JavaParse.StepOpen(s, s1);
    assert s1.(i := 2, stack := [SUB] + [OPEN]) == JavaParse.Scan(2, [], [SUB, OPEN], [], false, false);
  }

  /** `100 ` reads as its three digits and a separator. */
  lemma NegatedHundred(s: string, stack: seq<JToken>)
    requires |s| == 11 && s[2] == '1' && s[3] == '0' && s[4] == '0' && s[5] == ' '
    ensures JavaParse.Run(s, JavaParse.Scan(2, [], stack, [], false, false))
      == JavaParse.Run(s, JavaParse.Scan(6, [Digit('1'), Digit('0'), Digit('0'), SP], stack, [SP], false, false))
  {
    var s2 := JavaParse.Scan(2, [], stack, [], false, false);
    DigitInRun(s, s2);
    var s3 := s2.(i := 3, tokens := [Digit('1')]);
    assert s2.tokens + [Digit(s[2])] == s3.tokens;
    DigitInRun(s, s3);
    var s4 := s3.(i := 4, tokens := [Digit('1'), Digit('0')]);
    assert s3.tokens + [Digit(s[3])] == s4.tokens;
    DigitBeforeSeparator(s, s4);
    var s5 := s4.(i := 5, tokens := [Digit('1'), Digit('0'), Digit('0'), SP], sublist := [SP]);
    assert s4.tokens + [Digit(s[4]), SP] == s5.tokens && s4.sublist + [SP] == [SP];
    SkipSpace(s, s5);
  }

  /** The binary `-` finds the `(` on top and is pushed over it. */
  lemma NegatedMinus(s: string, tokens: seq<JToken>, sub: seq<JToken>)
    requires |s| == 11 && s[6] == '-' && s[7] == ' '
    ensures JavaParse.Run(s, JavaParse.Scan(6, tokens, [SUB, OPEN], sub, false, false))
      == JavaParse.Run(s, JavaParse.Scan(8, tokens, [SUB, OPEN, SUB], sub, false, false))
  {
    var st := JavaParse.Scan(6, tokens, [SUB, OPEN], sub, false, false);
    var t := JavaParse.OperatorToken('-');
    assert t == SUB;
    assert BindingHeight(st.stack, Precedence(t.kind), 2) == 2;
    assert st.stack[2..] == [] && st.stack[..2] + [t] == [SUB, OPEN, SUB];
    assert tokens + Reversed([]) == tokens;
    assert JavaParse.SymbolStep('-', st) == Ok(st.(i := 7, stack := [SUB, OPEN, SUB]));
    JavaParse.StepSymbol(s, st);
    SkipSpace(s, st.(i := 7, stack := [SUB, OPEN, SUB]));
  }

  /** The second `-` pops the first one and is pushed in its place. */
  lemma NegatedSign(s: string, tokens: seq<JToken>, sub: seq<JToken>)
    requires |s| == 11 && s[8] == '-'
    ensures JavaParse.Run(s, JavaParse.Scan(8, tokens, [SUB, OPEN, SUB], sub, false, false))
      == JavaParse.Run(s, JavaParse.Scan(9, tokens + [SUB], [SUB, OPEN, SUB], sub, false, false))
  {
    var st := JavaParse.Scan(8, tokens, [SUB, OPEN, SUB], sub, false, false);
    NegatedSignStep(st);
    JavaParse.StepSymbol(s, st);
  }

  /** The sign `-` over `- ( -` pops the binary `-` and pushes its own. */
  lemma NegatedSignStep(st: JavaParse.Scan)
    requires st.stack == [SUB, OPEN, SUB]
    ensures JavaParse.SymbolStep('-', st) == Ok(st.(i := st.i + 1, tokens := st.tokens + [SUB]))
  {
    var t := JavaParse.OperatorToken('-');
    assert t == SUB;
    NegatedSignHeight(st.stack);
    assert st.stack[2..] == [SUB] && st.stack[..2] + [t] == [SUB, OPEN, SUB];
    assert Reversed([SUB]) == [SUB];
    assert JavaParse.SymbolStep('-', st) == Ok(JavaParse.OperatorStep(st, '-'));
  }

  /** A `-` over `- ( -` pops only the top `-`: the `(` binds less. */
  lemma NegatedSignHeight(stack: seq<JToken>)
    requires stack == [SUB, OPEN, SUB]
    ensures BindingHeight(stack, Precedence(Subtraction), 3) == 2
  {
    assert Precedence(stack[2].kind) == Precedence(Subtraction);
    assert Precedence(stack[1].kind) < Precedence(Subtraction);
  }

  /** `5)` ends the number with a separator, and the `)` pops the inner `-`
      and the `(`, leaving the leading `-`, which the end of the scan
      appends. */
  lemma NegatedClose(s: string, tokens: seq<JToken>, sub: seq<JToken>)
    requires |s| == 11 && s[9] == '5' && s[10] == ')'
    requires forall k :: 0 <= k < |tokens| ==> !IsFunctionType(tokens[k].kind)
    ensures JavaParse.Run(s, JavaParse.Scan(9, tokens, [SUB, OPEN, SUB], sub, false, false))
      == Ok(tokens + [Digit('5'), SP, SUB, SUB])
  {
    var st := JavaParse.Scan(9, tokens, [SUB, OPEN, SUB], sub, false, false);
    var s10 := st.(i := 10, tokens := tokens + [Digit('5'), SP], sublist := sub + [SP]);
    DigitBeforeSeparator(s, st);
    NoFunctionAppended(tokens, [Digit('5'), SP]);
    NegatedCloseTail(s, s10);
    assert s10.tokens + [SUB, SUB] == tokens + [Digit('5'), SP, SUB, SUB];
  }

  /** Appending tokens that are not functions keeps the output free of them. */
  lemma NoFunctionAppended(tokens: seq<JToken>, extra: seq<JToken>)
    requires forall k :: 0 <= k < |tokens| ==> !IsFunctionType(tokens[k].kind)
    requires forall k :: 0 <= k < |extra| ==> !IsFunctionType(extra[k].kind)
    ensures var ts := tokens + extra;
      forall k :: 0 <= k < |ts| ==> !IsFunctionType(ts[k].kind)
  {
    var ts := tokens + extra;
    forall k | 0 <= k < |ts| ensures !IsFunctionType(ts[k].kind) {
      if k < |tokens| {
        assert ts[k] == tokens[k];
      } else {
        assert ts[k] == extra[k - |tokens|];
      }
    }
  }

  /** The final `)` and the drain after it append both minus signs. */
  lemma NegatedCloseTail(s: string, st: JavaParse.Scan)
    requires |s| == 11 && s[10] == ')' && st.i == 10
    requires st.stack == [SUB, OPEN, SUB] && !st.functionParenthesis
    requires forall k :: 0 <= k < |st.tokens| ==> !IsFunctionType(st.tokens[k].kind)
    ensures JavaParse.Run(s, st) == Ok(st.tokens + [SUB, SUB])
  {
    var s11 := st.(i := 11, tokens := st.tokens + [SUB], stack := [SUB]);
    NegatedCloseStep(st);
    JavaParse.StepSymbol(s, st);
    NoFunctionAppended(st.tokens, [SUB]);
    FinishOne(s, s11, SUB);
    assert s11.tokens + [SUB] == st.tokens + [SUB, SUB];
  }

  lemma NegatedCloseStep(st: JavaParse.Scan)
    requires st.stack == [SUB, OPEN, SUB] && !st.functionParenthesis
    ensures JavaParse.SymbolStep(')', st) == Ok(st.(i := st.i + 1, tokens := st.tokens + [SUB], stack := [SUB]))
  {
    NegatedOpenHeight(st.stack);
    CloseAt(st, 2);
    NegatedPopped(st.stack);
  }

  /** Outside a function's parenthesis, `)` pops down to the nearest open
      parenthesis at height `m` and drops it. */
  lemma CloseAt(st: JavaParse.Scan, m: nat)
    requires 0 < m <= |st.stack| && OpenHeight(st.stack, |st.stack|) == m && !st.functionParenthesis
    ensures JavaParse.SymbolStep(')', st)
      == Ok(st.(i := st.i + 1, tokens := st.tokens + Reversed(st.stack[m..]), stack := st.stack[..m - 1]))
  {
  }

  /** In `- ( -`, the close pops the inner minus and leaves the outer one. */
  lemma NegatedPopped(stack: seq<JToken>)
    requires stack == [SUB, OPEN, SUB]
    ensures Reversed(stack[2..]) == [SUB] && stack[..1] == [SUB]
  {
    assert stack[2..] == [SUB];
  }

  /** In `- ( -`, the nearest open parenthesis is the second entry. */
  lemma NegatedOpenHeight(stack: seq<JToken>)
    requires stack == [SUB, OPEN, SUB]
    ensures OpenHeight(stack, 3) == 2
  {
    assert stack[2].kind == Subtraction && stack[1].kind == OpenParenthesis;
  }

  const HUNDRED := [Digit('1'), Digit('0'), Digit('0'), SP]

  lemma ParseNegatedLeft(s: string)
    requires |s| == 11 && s[0] == '-' && s[1] == '(' && s[2] == '1' && s[3] == '0' && s[4] == '0'
    requires s[5] == ' ' && s[6] == '-' && s[7] == ' '
    ensures JavaParse.Run(s, JavaParse.START)
      == JavaParse.Run(s, JavaParse.Scan(8, HUNDRED, [SUB, OPEN, SUB], [SP], false, false))
  {
    NegatedOpen(s);
    NegatedHundred(s, [SUB, OPEN]);
    NegatedMinus(s, HUNDRED, [SP]);
  }

  lemma ParseNegatedRight(s: string)
    requires |s| == 11 && s[8] == '-' && s[9] == '5' && s[10] == ')'
    ensures JavaParse.Run(s, JavaParse.Scan(8, HUNDRED, [SUB, OPEN, SUB], [SP], false, false))
      == Ok([Digit('1'), Digit('0'), Digit('0'), SP, SUB, Digit('5'), SP, SUB, SUB])
  {
    assert forall k :: 0 <= k < |HUNDRED| ==> !IsFunctionType(HUNDRED[k].kind);
    NegatedTail(s, HUNDRED, [SP]);
    assert HUNDRED + [SUB, Digit('5'), SP, SUB, SUB]
      == [Digit('1'), Digit('0'), Digit('0'), SP, SUB, Digit('5'), SP, SUB, SUB];
  }

  lemma NegatedTail(s: string, tokens: seq<JToken>, sub: seq<JToken>)
    requires |s| == 11 && s[8] == '-' && s[9] == '5' && s[10] == ')'
    requires forall k :: 0 <= k < |tokens| ==> !IsFunctionType(tokens[k].kind)
    ensures JavaParse.Run(s, JavaParse.Scan(8, tokens, [SUB, OPEN, SUB], sub, false, false))
      == Ok(tokens + [SUB, Digit('5'), SP, SUB, SUB])
  {
    NegatedSign(s, tokens, sub);
    assert forall k :: 0 <= k < |tokens + [SUB]| ==> !IsFunctionType((tokens + [SUB])[k].kind);
    NegatedClose(s, tokens + [SUB], sub);
    assert tokens + [SUB] + [Digit('5'), SP, SUB, SUB] == tokens + [SUB, Digit('5'), SP, SUB, SUB];
  }

  /** `-(100 - -5)` reads the leading `-` as a binary operator: the postfix
      list is `1 0 0 SP - 5 SP - -`. */
  lemma ParseNegated(s: string)
    requires s == "-(100 - -5)"
    ensures JavaParse.Parsed(s)
      == Ok([Digit('1'), Digit('0'), Digit('0'), SP, SUB, Digit('5'), SP, SUB, SUB])
  {
    ParseNegatedLeft(s);
    ParseNegatedRight(s);
  }

  /** A three-digit run that another token follows fuses to its operand. */
  lemma FuseThree(ts: seq<JToken>, i: nat, c: char, d: char, e: char)
    requires i + 3 < |ts| && Numeric.IsDigitChar(c) && Numeric.IsDigitChar(d) && Numeric.IsDigitChar(e)
    requires ts[i] == Digit(c) && ts[i + 1] == Digit(d) && ts[i + 2] == Digit(e) && !IsRunType(ts[i + 3].kind)
    ensures Numeric.AllDigits([c, d, e])
    ensures JavaConcat.FuseFrom(ts, i, "") == JavaConcat.FuseFrom(ts[..i] + [Number([c, d, e])] + ts[i + 3..], i + 1, "")
  {
    assert Numeric.AllDigits([c, d, e]);
    FuseExtend(ts, i, "");
    assert "" + ts[i].show == [c];
    FuseExtend(ts, i + 1, [c]);
    assert [c] + ts[i + 1].show == [c, d] && [c, d] + ts[i + 2].show == [c, d, e];
    DigitsLiteral([c, d, e], Numeric.DigitsValue([c, d, e]) as real);
    FuseClose(ts, i + 2, [c, d], [c, d, e], Number([c, d, e]));
    assert i + 2 + 1 - |[c, d, e]| == i;
  }

  lemma FuseNegatedRuns(ts: seq<JToken>)
    requires ts == [Digit('1'), Digit('0'), Digit('0'), SP, SUB, Digit('5'), SP, SUB, SUB]
    ensures Numeric.AllDigits("100") && Numeric.AllDigits("5")
    ensures JavaConcat.FuseFrom(ts, 0, "") == Ok([Number("100"), SP, SUB, Number("5"), SP, SUB, SUB])
  {
    assert Numeric.AllDigits("100") && Numeric.AllDigits("5");
    var x := Number("100");
    var ts1 := [x, SP, SUB, Digit('5'), SP, SUB, SUB];
    FuseHundred(ts, x);
    FuseFive(ts1);
  }

  /** The run `1 0 0` at the front fuses to 100. */
  lemma FuseHundred(ts: seq<JToken>, x: JToken)
    requires ts == [Digit('1'), Digit('0'), Digit('0'), SP, SUB, Digit('5'), SP, SUB, SUB]
    requires Numeric.AllDigits("100") && x == Number("100")
    ensures JavaConcat.FuseFrom(ts, 0, "") == JavaConcat.FuseFrom([x, SP, SUB, Digit('5'), SP, SUB, SUB], 1, "")
  {
    FuseThree(ts, 0, '1', '0', '0');
    assert ts[..0] + [x] + ts[3..] == [x, SP, SUB, Digit('5'), SP, SUB, SUB];
  }

  /** After 100, the run `5` fuses and the rest passes unchanged. */
  lemma FuseFive(ts1: seq<JToken>)
    requires Numeric.AllDigits("100") && Numeric.AllDigits("5")
    requires ts1 == [Number("100"), SP, SUB, Digit('5'), SP, SUB, SUB]
    ensures JavaConcat.FuseFrom(ts1, 1, "") == Ok([Number("100"), SP, SUB, Number("5"), SP, SUB, SUB])
  {
    var y := Number("5");
    var ts2 := [Number("100"), SP, SUB, y, SP, SUB, SUB];
    FuseSkip(ts1, 1, "");
    FuseSkip(ts1, 2, "");
    FuseOne(ts1, 3, '5');
    assert ts1[..3] + [y] + ts1[4..] == ts2;
    FuseSkip(ts2, 4, "");
    FuseSkip(ts2, 5, "");
    FuseSkip(ts2, 6, "");
  }

  lemma NegatedSpacesOut(x: JToken, y: JToken)
    requires x.kind != Space && y.kind != Space
    ensures JavaConcat.SpacesRemoved([x, SP, SUB, y, SP, SUB, SUB], 0) == [x, SUB, y, SUB, SUB]
  {
    var ts2 := [x, SP, SUB, y, SP, SUB, SUB];
    var ts3 := [x, SUB, y, SP, SUB, SUB];
    assert JavaConcat.SpacesRemoved(ts2, 0) == JavaConcat.SpacesRemoved(ts3, 2) by {
      assert JavaConcat.SpacesRemoved(ts2, 0) == JavaConcat.SpacesRemoved(ts2, 1);
      assert ts2[..1] + ts2[2..] == ts3;
    }
    var ts4 := [x, SUB, y, SUB, SUB];
    assert JavaConcat.SpacesRemoved(ts3, 2) == JavaConcat.SpacesRemoved(ts4, 4) by {
      assert JavaConcat.SpacesRemoved(ts3, 2) == JavaConcat.SpacesRemoved(ts3, 3);
      assert ts3[..3] + ts3[4..] == ts4;
    }
    assert JavaConcat.SpacesRemoved(ts4, 4) == JavaConcat.SpacesRemoved(ts4, 5);
  }

  /** The postfix list of `-(100 - -5)` fuses to `100 - 5 - -`. */
  lemma FuseNegated(ts: seq<JToken>)
    requires ts == [Digit('1'), Digit('0'), Digit('0'), SP, SUB, Digit('5'), SP, SUB, SUB]
    ensures Numeric.AllDigits("100") && Numeric.AllDigits("5")
    ensures JavaConcat.Concatenated(ts) == Ok([Number("100"), SUB, Number("5"), SUB, SUB])
  {
    FuseNegatedRuns(ts);
    NegatedSpacesOut(Number("100"), Number("5"));
  }

  /** The constructor on `-(100 - -5)` pops an empty stack: the first `-`
      of the fused list `100 - 5 - -` has only one node below it. The
      repository's test `negativeTest_1` expects -105. */
  lemma NegatedTest(s: string)
    requires s == "-(100 - -5)"
    ensures JavaEval.Constructed(s) == Err(EmptyStack)
  {
    var parsed := [Digit('1'), Digit('0'), Digit('0'), SP, SUB, Digit('5'), SP, SUB, SUB];
    ParseNegated(s);
    FuseNegated(parsed);
    NegatedBuildFails(Number("100"), Number("5"));
  }

  /** `x - y - -`: no pass changes the list, and the first `-` finds a
      single node on the stack. */
  lemma NegatedBuildFails(x: JToken, y: JToken)
    requires x.kind == Operand && y.kind == Operand
    ensures var ts := [x, SUB, y, SUB, SUB];
      JavaEval.Passes(ts, 0, JavaEval.SharedPartial(ts)) == Ok(JavaEval.SharedPartial(ts))
      && JavaParse.Shared(ts, JavaEval.SharedPartial(ts)) == ts
      && JavaEval.Built(ts) == Err(EmptyStack)
  {
    var ts := [x, SUB, y, SUB, SUB];
    assert forall k :: 0 <= k < |ts| ==> !IsFunctionType(ts[k].kind);
    NoFunctionPasses(ts, 0, JavaEval.SharedPartial(ts));
    assert JavaEval.BuiltFrom(ts, 0, []) == JavaEval.BuiltFrom(ts, 1, [Leaf(x)]);
  }
}

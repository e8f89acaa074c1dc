/** The token vocabulary shared by both Java versions of the calculator
    (src/tree/ExpressionTree.java and the earlier src/ExpressionTree.java):
    the `Type` enum, the static digit, function and operator tables, the
    precedence table, and the two operator-stack loops of `parseInfix`.

    Both files declare their own copies of these tables with the same
    entries; they are defined once here. */
module JavaTypes {
  import opened Outcomes
  import opened Stacks
  import Numeric

  /** A digit constant's number. */
  type Numeral = n: nat | n <= 9

  /** The `Type` enum, constant by constant, except that its ten digit
      constants `ZERO` to `NINE` are `Digit(0)` to `Digit(9)`. `NoType` is
      `null`: the type the earlier version gives a character that has no
      entry in its operator table. */
  datatype JType =
    | Digit(n: Numeral)
    | Addition | Subtraction | Multiplication | Division | Exp
    | Sin | Cos | Tan | Asin | Acos | Atan | Sinh | Cosh | Tanh | Sqrt | Cbrt | Log | Ln
    | Pi | E
    | OpenParenthesis | CloseParenthesis
    | Operand | Variable | Decimal | Space
    | NoType

  /** A token: its type (`kind`), its numeric value (`None` where the source has
      `null`), the argument tokens of a function (empty where the source has
      `null`) and its glyphs. The earlier version's tokens carry only a type
      and their glyphs. */
  datatype JToken = JToken(kind: JType, value: Option<real>, partial: seq<JToken>, show: string)

  /** The exceptions the Java code throws. `IndexOutOfBounds` is a
      `substring` or `get` past the end, `EmptyStack` a `pop` of an empty
      `Stack`, `NullType` the NullPointerException of `precedence` reading
      the `null` type of a character with no entry in the operator table,
      `NumberFormat` a literal `Double.parseDouble` rejects, `NullDereference` a
      missing child node or a `null` operand value, `UnknownOperation` a node
      `solveRec` cannot evaluate. */
  datatype JavaError =
    | IndexOutOfBounds | UnknownFunction(name: string) | EmptyStack
    | InvalidExpressionFormat | NullType(glyphs: string) | NumberFormat(glyphs: string)
    | NullDereference | UnknownOperation

  const DIGIT_TYPES: map<int, JType> := map[
    0 := Digit(0), 1 := Digit(1), 2 := Digit(2), 3 := Digit(3), 4 := Digit(4),
    5 := Digit(5), 6 := Digit(6), 7 := Digit(7), 8 := Digit(8), 9 := Digit(9)]

  const FUNCTION_TYPES: map<string, JType> := map[
    "sin" := Sin, "cos" := Cos, "tan" := Tan,
    "asin" := Asin, "acos" := Acos, "atan" := Atan,
    "sinh" := Sinh, "cosh" := Cosh, "tanh" := Tanh,
    "sqrt" := Sqrt, "cbrt" := Cbrt,
    "log" := Log, "ln" := Ln]

  const OPERATOR_TYPES: map<char, JType> := map[
    '+' := Addition, '-' := Subtraction, '*' := Multiplication, '/' := Division, '^' := Exp]

  /** `digitMap.containsValue(type)`. */
  predicate IsDigitType(t: JType) {
    t.Digit?
  }

  /** `operatorMap.containsValue(type)`. */
  predicate IsOperatorType(t: JType) {
    t.Addition? || t.Subtraction? || t.Multiplication? || t.Division? || t.Exp?
  }

  /** `functionMap.containsValue(type)`. */
  predicate IsFunctionType(t: JType) {
    t.Sin? || t.Cos? || t.Tan? || t.Asin? || t.Acos? || t.Atan? || t.Sinh? || t.Cosh? || t.Tanh?
    || t.Sqrt? || t.Cbrt? || t.Log? || t.Ln?
  }

  /** `isOperand()`: a digit or a fused OPERAND. */
  predicate IsOperandType(t: JType) {
    IsDigitType(t) || t.Operand?
  }

  /** The digit test is `digitMap.containsValue`. */
  lemma DigitTypesAreTableValues(t: JType)
    ensures IsDigitType(t) <==> t in DIGIT_TYPES.Values
  {
    if t.Digit? {
      assert DIGIT_TYPES[t.n as int] == t;
    } else if t in DIGIT_TYPES.Values {
      TableValuesAreDigits(t);
    }
  }

  /** Every value of the digit table is a digit type. */
  lemma TableValuesAreDigits(t: JType)
    requires t in DIGIT_TYPES.Values
    ensures t.Digit?
  {
    var k :| k in DIGIT_TYPES && DIGIT_TYPES[k] == t;
    assert k in {0, 1, 2, 3, 4, 5, 6, 7, 8, 9};
  }

  /** The operator test is `operatorMap.containsValue`. */
  lemma OperatorTypesAreTableValues(t: JType)
    ensures IsOperatorType(t) <==> t in OPERATOR_TYPES.Values
  {
    assert OPERATOR_TYPES['+'] == Addition && OPERATOR_TYPES['-'] == Subtraction;
    assert OPERATOR_TYPES['*'] == Multiplication && OPERATOR_TYPES['/'] == Division;
    assert OPERATOR_TYPES['^'] == Exp;
  }

  /** `digitMap.get(Character.getNumericValue(c))` for a decimal digit `c`. */
  function DigitType(c: char): (t: JType)
    requires Numeric.IsDigitChar(c)
    ensures IsDigitType(t) && DIGIT_TYPES[Numeric.DigitValue(c)] == t
  {
    DIGIT_TYPES[Numeric.DigitValue(c)]
  }

  /** A token that starts or extends a number: a digit, a fused OPERAND or a
      decimal point. */
  predicate IsRunType(t: JType) {
    IsOperandType(t) || t.Decimal?
  }

  /** A number token that shows exactly one digit or decimal point, as the
      tokens `parseInfix` creates do. */
  predicate OneGlyph(t: JToken) {
    IsRunType(t.kind) ==> |t.show| == 1 && (Numeric.IsDigitChar(t.show[0]) || t.show[0] == '.')
  }

  predicate GlyphTokens(ts: seq<JToken>) {
    forall k :: 0 <= k < |ts| ==> OneGlyph(ts[k])
  }

  /** `Character.isLetter`, on the ASCII letters. */
  predicate IsLetter(c: char) {
    'a' <= c <= 'z' || 'A' <= c <= 'Z'
  }

  /** `precedence(type)`: 1 for + and -, 2 for * and /, 3 for ^, and -1 for
      every other type, the open parenthesis included. For `NoType` the
      source's `switch` throws; the scans check for it before they read its
      precedence. */
  function Precedence(t: JType): (p: int)
    ensures p == -1 || 1 <= p <= 3
    ensures p >= 1 <==> IsOperatorType(t)
  {
    if t == Addition || t == Subtraction then 1
    else if t == Multiplication || t == Division then 2
    else if t == Exp then 3
    else -1
  }

  /** The precedence table, entry by entry: the operators bind left to right
      in the usual order, and an open parenthesis binds nothing. */
  lemma PrecedenceTable()
    ensures Precedence(Addition) == Precedence(Subtraction) == 1
    ensures Precedence(Multiplication) == Precedence(Division) == 2
    ensures Precedence(Exp) == 3
    ensures Precedence(OpenParenthesis) == -1 && Precedence(Variable) == -1
    ensures forall c :: c in OPERATOR_TYPES ==> Precedence(OPERATOR_TYPES[c]) >= 1
  {
  }

  /** Every function name has two to four lower-case letters, none begins
      with `p`, and `ln` is the only two-letter one. */
  lemma FunctionNames()
    ensures forall k :: k in FUNCTION_TYPES ==> 2 <= |k| <= 4 && IsFunctionType(FUNCTION_TYPES[k])
    ensures forall k :: k in FUNCTION_TYPES ==> k[0] != 'p'
    ensures forall k :: k in FUNCTION_TYPES && |k| == 2 ==> k == "ln"
  {
    forall k | k in FUNCTION_TYPES
      ensures 2 <= |k| <= 4 && IsFunctionType(FUNCTION_TYPES[k]) && k[0] != 'p'
      ensures |k| == 2 ==> k == "ln"
    {
      if k == "sin" {} else if k == "cos" {} else if k == "tan" {}
      else if k == "asin" {} else if k == "acos" {} else if k == "atan" {}
      else if k == "sinh" {} else if k == "cosh" {} else if k == "tanh" {}
      else if k == "sqrt" {} else if k == "cbrt" {}
      else if k == "log" {} else {
        assert k == "ln";
      }
    }
  }

  // The operator stack. Its top is the last element.

  /** How much of `stack[..n]` is left once every top element that binds at
      least as tightly as precedence `p` has been popped. */
  function BindingHeight(stack: seq<JToken>, p: int, n: nat): (m: nat)
    requires n <= |stack|
    ensures m <= n
    ensures forall k :: m <= k < n ==> p <= Precedence(stack[k].kind)
    ensures m > 0 ==> Precedence(stack[m - 1].kind) < p
  {
    if n == 0 || Precedence(stack[n - 1].kind) < p then n else BindingHeight(stack, p, n - 1)
  }

  /** How much of `stack[..n]` is left once every top element up to the
      nearest open parenthesis has been popped; that parenthesis, if any, is
      then the top. */
  function OpenHeight(stack: seq<JToken>, n: nat): (m: nat)
    requires n <= |stack|
    ensures m <= n
    ensures forall k :: m <= k < n ==> stack[k].kind != OpenParenthesis
    ensures m > 0 ==> stack[m - 1].kind == OpenParenthesis
  {
    if n == 0 || stack[n - 1].kind == OpenParenthesis then n else OpenHeight(stack, n - 1)
  }

  /** What draining the operator stack at the end of `parseInfix` appends:
      the whole stack, top first, or the "Invalid Expression Format" error if
      an open parenthesis is still on it. */
  function Drained(stack: seq<JToken>): Result<seq<JToken>, JavaError> {
    if exists k :: 0 <= k < |stack| && stack[k].kind == OpenParenthesis then Err(InvalidExpressionFormat)
    else Ok(Reversed(stack))
  }

  /** Popping the element under `stack[n..]` appends it to what was popped. */
  lemma PopStep(tokens: seq<JToken>, out: seq<JToken>, stack: seq<JToken>, n: nat)
    requires 0 < n <= |stack| && out == tokens + Reversed(stack[n..])
    ensures out + [stack[n - 1]] == tokens + Reversed(stack[n - 1..])
  {
    assert stack[n - 1..][1..] == stack[n..];
  }

  /** The operator loop: pop every top operator that binds at least as
      tightly as the incoming one, appending it to `tokens`. The stack is
      `stack[..n]`, so a pop is a decrement of `n`. */
  method PopBinding(tokens: seq<JToken>, stack: seq<JToken>, p: int) returns (out: seq<JToken>, rest: seq<JToken>)
    ensures var m := BindingHeight(stack, p, |stack|);
      out == tokens + Reversed(stack[m..]) && rest == stack[..m]
  {
    out := tokens;
    var n := |stack|;
    assert stack[n..] == [];
    while n > 0 && p <= Precedence(stack[n - 1].kind)
      invariant n <= |stack|
      invariant BindingHeight(stack, p, |stack|) == BindingHeight(stack, p, n)
      invariant out == tokens + Reversed(stack[n..])
    {
      PopStep(tokens, out, stack, n);
      out := out + [stack[n - 1]];
      n := n - 1;
    }
    rest := stack[..n];
  }

  /** The final loop of `parseInfix`: pop the whole stack onto `tokens`,
      failing at the first open parenthesis. */
  method DrainStack(tokens: seq<JToken>, stack: seq<JToken>) returns (r: Result<seq<JToken>, JavaError>)
    ensures r == (var d := Drained(stack); if d.Err? then Err(d.error) else Ok(tokens + d.value))
  {
    var out := tokens;
    var n := |stack|;
    assert stack[n..] == [];
    while n > 0
      invariant n <= |stack|
      invariant forall k :: n <= k < |stack| ==> stack[k].kind != OpenParenthesis
      invariant out == tokens + Reversed(stack[n..])
    {
      if stack[n - 1].kind == OpenParenthesis {
        return Err(InvalidExpressionFormat);
      }
      PopStep(tokens, out, stack, n);
      out := out + [stack[n - 1]];
      n := n - 1;
    }
    assert stack[0..] == stack;
    return Ok(out);
  }
}

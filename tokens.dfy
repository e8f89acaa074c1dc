/** The token catalog of the JavaScript calculator (calc/token.js): a token's
    numeric type id decides its category and precedence; the static tables map
    digits, operator glyphs and function names to catalog tokens. */
module Tokens {
  import opened Outcomes
  import Numeric

  /** The `math` slot of a token: which entry of the math table it calls. */
  datatype MathFn = NoMath | Add | Subtract | Multiply | Divide | Pow
                  | Sin | Cos | Tan | Asin | Acos | Atan | Sinh | Cosh | Tanh
                  | Sqrt | Cbrt | Log | Ln | Abs

  /** A token: its type id (`kind`), its numeric value if any, the argument
      tokens of a function (empty for every other token, where the source has
      `null`), its glyphs and its math operation. */
  datatype Token = Token(kind: int, value: Option<real>, subtokens: seq<Token>,
                         show: string, math: MathFn)

  // Digits
  const ZERO  := Token(0, Some(0.0), [], "0", NoMath)
  const ONE   := Token(1, Some(1.0), [], "1", NoMath)
  const TWO   := Token(2, Some(2.0), [], "2", NoMath)
  const THREE := Token(3, Some(3.0), [], "3", NoMath)
  const FOUR  := Token(4, Some(4.0), [], "4", NoMath)
  const FIVE  := Token(5, Some(5.0), [], "5", NoMath)
  const SIX   := Token(6, Some(6.0), [], "6", NoMath)
  const SEVEN := Token(7, Some(7.0), [], "7", NoMath)
  const EIGHT := Token(8, Some(8.0), [], "8", NoMath)
  const NINE  := Token(9, Some(9.0), [], "9", NoMath)
  // Operators
  const ADDITION       := Token(10, None, [], "+", Add)
  const SUBTRACTION    := Token(11, None, [], "-", Subtract)
  const MULTIPLICATION := Token(12, None, [], "*", Multiply)
  const DIVISION       := Token(13, None, [], "/", Divide)
  const POW            := Token(14, None, [], "^", Pow)
  // Functions
  const SIN  := Token(15, None, [], "sin", Sin)
  const COS  := Token(16, None, [], "cos", Cos)
  const TAN  := Token(17, None, [], "tan", Tan)
  const ASIN := Token(18, None, [], "asin", Asin)
  const ACOS := Token(19, None, [], "acos", Acos)
  const ATAN := Token(20, None, [], "atan", Atan)
  const SINH := Token(21, None, [], "sinh", Sinh)
  const COSH := Token(22, None, [], "cosh", Cosh)
  const TANH := Token(23, None, [], "tanh", Tanh)
  const SQRT := Token(24, None, [], "sqrt", Sqrt)
  const CBRT := Token(25, None, [], "cbrt", Cbrt)
  const LOG  := Token(26, None, [], "log", Log)
  const LN   := Token(27, None, [], "ln", Ln)
  const ABS  := Token(27, None, [], "abs", Abs)
  // Constants
  const PI := Token(28, Some(Numeric.PI_VALUE), [], "pi", NoMath)
  const E  := Token(29, Some(Numeric.E_VALUE), [], "e", NoMath)
  // Other
  const OPEN_PARENTHESIS  := Token(30, None, [], "(", NoMath)
  const CLOSE_PARENTHESIS := Token(31, None, [], ")", NoMath)
  const FUNCTION_OPEN     := Token(32, None, [], "(", NoMath)
  const FUNCTION_CLOSE    := Token(33, None, [], ")", NoMath)
  const OPERAND           := Token(34, Some(0.0), [], "0", NoMath)
  const VARIABLE          := Token(35, None, [], "x", NoMath)
  const DECIMAL           := Token(36, None, [], ".", NoMath)
  const NEGATIVE          := Token(37, None, [], "-", NoMath)
  const SPACE             := Token(38, None, [], " ", NoMath)

  predicate IsOperator(t: Token) {
    10 <= t.kind <= 14
  }

  predicate IsFunction(t: Token) {
    15 <= t.kind <= 27
  }

  predicate IsOperand(t: Token) {
    (0 <= t.kind <= 9) || t.kind == OPERAND.kind
  }

  predicate IsConstant(t: Token) {
    t.kind == PI.kind || t.kind == E.kind
  }

  predicate IsVariable(t: Token) {
    t.kind == VARIABLE.kind
  }

  /** Binding strength for the shunting-yard: only the five operators and the
      unary NEGATIVE bind at all; everything else, the OPEN_PARENTHESIS marker
      included, has -1 and so is never popped by an operator. */
  function Precedence(t: Token): (p: int)
    ensures p == -1 || 1 <= p <= 3
    ensures p >= 1 <==> IsOperator(t) || t.kind == NEGATIVE.kind
  {
    if t.kind == ADDITION.kind || t.kind == SUBTRACTION.kind || t.kind == NEGATIVE.kind then 1
    else if t.kind == MULTIPLICATION.kind || t.kind == DIVISION.kind then 2
    else if t.kind == POW.kind then 3
    else -1
  }

  /** The precedence table, entry by entry. */
  lemma PrecedenceTable()
    ensures Precedence(ADDITION) == Precedence(SUBTRACTION) == Precedence(NEGATIVE) == 1
    ensures Precedence(MULTIPLICATION) == Precedence(DIVISION) == 2
    ensures Precedence(POW) == 3
    ensures Precedence(OPEN_PARENTHESIS) == -1
  {
  }

  /** The five categories never overlap. */
  lemma CategoriesDisjoint(t: Token)
    ensures IsOperator(t) ==> !IsFunction(t) && !IsOperand(t) && !IsConstant(t) && !IsVariable(t)
    ensures IsFunction(t) ==> !IsOperand(t) && !IsConstant(t) && !IsVariable(t)
    ensures IsOperand(t) ==> !IsConstant(t) && !IsVariable(t)
    ensures IsConstant(t) ==> !IsVariable(t)
  {
  }

  const DIGIT_MAP: map<int, Token> := map[
    0 := ZERO, 1 := ONE, 2 := TWO, 3 := THREE, 4 := FOUR,
    5 := FIVE, 6 := SIX, 7 := SEVEN, 8 := EIGHT, 9 := NINE]

  const OPERATOR_MAP: map<char, Token> := map[
    '+' := ADDITION, '-' := SUBTRACTION, '*' := MULTIPLICATION, '/' := DIVISION, '^' := POW]

  const FUNCTION_MAP: map<string, Token> := map[
    "sin" := SIN, "cos" := COS, "tan" := TAN,
    "asin" := ASIN, "acos" := ACOS, "atan" := ATAN,
    "sinh" := SINH, "cosh" := COSH, "tanh" := TANH,
    "sqrt" := SQRT, "cbrt" := CBRT,
    "log" := LOG, "ln" := LN, "abs" := ABS]

  /** Every digit 0..9 maps to an operand token whose type and value are the
      digit and whose glyph is the digit's character. */
  lemma DigitMapEntries(d: int)
    requires 0 <= d <= 9
    ensures d in DIGIT_MAP
    ensures DIGIT_MAP[d].kind == d && DIGIT_MAP[d].value == Some(d as real)
    ensures DIGIT_MAP[d].show == [Numeric.DigitGlyph(d)] && IsOperand(DIGIT_MAP[d])
    ensures DIGIT_MAP[d].subtokens == []
  {
  }

  /** The operator table maps exactly the five operator glyphs, each to an
      operator token showing that glyph. */
  lemma OperatorMapEntries()
    ensures OPERATOR_MAP.Keys == {'+', '-', '*', '/', '^'}
    ensures forall c :: c in OPERATOR_MAP ==> IsOperator(OPERATOR_MAP[c]) && OPERATOR_MAP[c].show == [c]
  {
  }

  /** Every function name has two to four lower-case letters and maps to a
      function token showing that name, with no arguments yet. */
  lemma FunctionMapEntries()
    ensures forall k :: k in FUNCTION_MAP ==>
      2 <= |k| <= 4 && IsFunction(FUNCTION_MAP[k]) && FUNCTION_MAP[k].show == k
      && FUNCTION_MAP[k].subtokens == []
    ensures forall k, n :: k in FUNCTION_MAP && 0 <= n < |k| ==> 'a' <= k[n] <= 'z'
  {
    forall k | k in FUNCTION_MAP
      ensures 2 <= |k| <= 4 && IsFunction(FUNCTION_MAP[k]) && FUNCTION_MAP[k].show == k
      ensures FUNCTION_MAP[k].subtokens == []
      ensures forall n :: 0 <= n < |k| ==> 'a' <= k[n] <= 'z'
    {
      if k == "sin" {} else if k == "cos" {} else if k == "tan" {}
      else if k == "asin" {} else if k == "acos" {} else if k == "atan" {}
      else if k == "sinh" {} else if k == "cosh" {} else if k == "tanh" {}
      else if k == "sqrt" {} else if k == "cbrt" {}
      else if k == "log" {} else if k == "ln" {} else {
        assert k == "abs";
      }
    }
  }

  /** No string shorter than two characters is a function name. */
  lemma ShortStringsAreNotNames(s: string)
    requires |s| <= 1
    ensures s !in FUNCTION_MAP
  {
  }

  /** A string holding a character other than a lower-case letter is not a
      function name. */
  lemma NonLetterExcludesName(s: string, n: nat)
    requires n < |s| && !('a' <= s[n] <= 'z')
    ensures s !in FUNCTION_MAP
  {
  }

  /** ABS reuses LN's type id, so the two are told apart only by glyph and math. */
  lemma AbsSharesLnType()
    ensures ABS.kind == LN.kind && IsFunction(ABS) && ABS != LN
    ensures PI.kind == 28 && E.kind == 29 && !IsOperand(PI) && !IsOperand(E)
  {
  }
}

/** The scoped shunting-yard conversion of the JavaScript calculator
    (`infixToPostfix` in calc/postfix.js).

    The converter keeps a stack of operator stacks, one scope per function
    argument, and a stack of the functions whose argument is being read. A
    function's `subtokens` is where the tokens of its argument go: every token
    is emitted to the innermost open function, or to the top-level output when
    none is open.

    The source appends a function token to the enclosing output as soon as it
    is read and then keeps filling its `subtokens` through the shared
    reference. Nothing else is emitted to the enclosing output while the
    function is open, so this model appends the finished function when it is
    closed (or when the input ends), which yields the same sequence. */
module ShuntingYard {
  import opened Outcomes
  import opened Stacks
  import opened Tokens

  /** Why the conversion fails. `UndefinedAccess` is the TypeError raised when
      the source reads a token past the end of the input (a trailing `-`) or
      uses the top operator scope after every scope has been closed. */
  datatype PostfixError = UnknownToken | InvalidExpressionFormat | InvalidParenthesisFormat | UndefinedAccess

  /** The converter's state: the top-level output, the open functions
      (innermost last), the operator scopes (innermost last) and the sticky
      implicit-multiplication flag. */
  datatype Converter = Converter(postfix: seq<Token>, functions: seq<Token>, scopes: seq<seq<Token>>, hasCoefficient: bool)

  const INITIAL: Converter := Converter([], [], [[]], false)

  /** Where the next emitted token goes. */
  function Sink(c: Converter): seq<Token> {
    if |c.functions| == 0 then c.postfix else c.functions[|c.functions| - 1].subtokens
  }

  /** Emit the tokens of `s`, in order, to the innermost open function, or to
      the output. */
  function EmitAll(c: Converter, s: seq<Token>): (r: Converter)
    ensures Sink(r) == Sink(c) + s
    ensures r.scopes == c.scopes && r.hasCoefficient == c.hasCoefficient
    ensures |r.functions| == |c.functions|
  {
    if |c.functions| == 0 then c.(postfix := c.postfix + s)
    else
      var n := |c.functions| - 1;
      c.(functions := c.functions[n := c.functions[n].(subtokens := c.functions[n].subtokens + s)])
  }

  /** Emitting touches nothing but the sink. */
  lemma EmitAllFrame(c: Converter, s: seq<Token>)
    ensures var r := EmitAll(c, s);
      var n := |c.functions| - 1;
      (n < 0 ==> r.functions == c.functions)
      && (n >= 0 ==>
            r.postfix == c.postfix && r.functions[..n] == c.functions[..n]
            && r.functions[n] == c.functions[n].(subtokens := c.functions[n].subtokens + s))
  {
    var n := |c.functions| - 1;
    if n >= 0 {
      assert EmitAll(c, s).functions[..n] == c.functions[..n];
    }
  }

  function Emit(c: Converter, t: Token): (r: Converter)
    ensures Sink(r) == Sink(c) + [t]
    ensures r.scopes == c.scopes && r.hasCoefficient == c.hasCoefficient
    ensures |r.functions| == |c.functions|
  {
    EmitAll(c, [t])
  }

  function Top(c: Converter): seq<Token>
    requires |c.scopes| > 0
  {
    c.scopes[|c.scopes| - 1]
  }

  function WithTop(c: Converter, scope: seq<Token>): (r: Converter)
    requires |c.scopes| > 0
    ensures |r.scopes| == |c.scopes| && Top(r) == scope
    ensures r.scopes[..|c.scopes| - 1] == c.scopes[..|c.scopes| - 1]
  {
    c.(scopes := c.scopes[|c.scopes| - 1 := scope])
  }

  /** Push `t` onto the innermost operator scope. */
  function PushOperator(c: Converter, t: Token): (r: Result<Converter, PostfixError>)
    ensures r.Err? <==> |c.scopes| == 0
    ensures r.Ok? ==> r.value == WithTop(c, Top(c) + [t])
  {
    if |c.scopes| == 0 then Err(UndefinedAccess) else Ok(WithTop(c, Top(c) + [t]))
  }

  /** A pending coefficient pushes a MULTIPLICATION and is cleared. */
  function ApplyCoefficient(c: Converter): (r: Result<Converter, PostfixError>)
    ensures r.Ok? ==> !r.value.hasCoefficient
  {
    if c.hasCoefficient then
      var d :- PushOperator(c, MULTIPLICATION);
      Ok(d.(hasCoefficient := false))
    else Ok(c)
  }

  /** Pop the innermost scope down to its first `m` operators; the popped ones
      go to the sink from the top down. */
  function PopTo(c: Converter, m: nat): (r: Converter)
    requires |c.scopes| > 0 && m <= |Top(c)|
    ensures |r.scopes| == |c.scopes| && Top(r) == Top(c)[..m]
    ensures r.scopes[..|c.scopes| - 1] == c.scopes[..|c.scopes| - 1]
    ensures Sink(r) == Sink(c) + Reversed(Top(c)[m..])
    ensures r.hasCoefficient == c.hasCoefficient && |r.functions| == |c.functions|
  {
    EmitAll(WithTop(c, Top(c)[..m]), Reversed(Top(c)[m..]))
  }

  /** How far the operator loop pops `stack` for an incoming precedence `p`:
      while the top binds at least as tightly. */
  function PopHeight(stack: seq<Token>, p: int): (m: nat)
    ensures m <= |stack|
  {
    if |stack| == 0 || p > Precedence(stack[|stack| - 1]) then |stack|
    else PopHeight(stack[..|stack| - 1], p)
  }

  /** How far the parenthesis loop pops `stack`: down to the topmost
      OPEN_PARENTHESIS marker, which stays. */
  function OpenHeight(stack: seq<Token>): (m: nat)
    ensures m <= |stack|
  {
    if |stack| == 0 || stack[|stack| - 1].kind == OPEN_PARENTHESIS.kind then |stack|
    else OpenHeight(stack[..|stack| - 1])
  }

  /** The operator loop. */
  function PopBinding(c: Converter, p: int): Converter
    requires |c.scopes| > 0
  {
    PopTo(c, PopHeight(Top(c), p))
  }

  /** The parenthesis loop. */
  function DrainToOpen(c: Converter): Converter
    requires |c.scopes| > 0
  {
    PopTo(c, OpenHeight(Top(c)))
  }

  /** The operator loop pops exactly the top run of operators that bind at
      least as tightly as the incoming one (equal precedence pops, so the
      operators are left-associative); what stays on top binds more loosely. */
  lemma {:induction false} PopHeightPops(stack: seq<Token>, p: int)
    ensures var m := PopHeight(stack, p);
      (forall k :: m <= k < |stack| ==> p <= Precedence(stack[k]))
      && (m > 0 ==> Precedence(stack[m - 1]) < p)
    decreases |stack|
  {
    var m := PopHeight(stack, p);
    if |stack| > 0 && p <= Precedence(stack[|stack| - 1]) {
      var n := |stack| - 1;
      var below := stack[..n];
      PopHeightPops(below, p);
      assert m == PopHeight(below, p);
      assert forall k :: m <= k < n ==> stack[k] == below[k];
      if m > 0 {
        assert stack[m - 1] == below[m - 1];
      }
    } else {
      assert m == |stack|;
    }
  }

  /** The parenthesis loop pops exactly the operators above the topmost OPEN
      marker (all of them when there is none). */
  lemma {:induction false} OpenHeightPops(stack: seq<Token>)
    ensures var m := OpenHeight(stack);
      (forall k :: m <= k < |stack| ==> stack[k].kind != OPEN_PARENTHESIS.kind)
      && (m > 0 ==> stack[m - 1].kind == OPEN_PARENTHESIS.kind)
    decreases |stack|
  {
    var m := OpenHeight(stack);
    if |stack| > 0 && stack[|stack| - 1].kind != OPEN_PARENTHESIS.kind {
      var n := |stack| - 1;
      var below := stack[..n];
      OpenHeightPops(below);
      assert m == OpenHeight(below);
      assert forall k :: m <= k < n ==> stack[k] == below[k];
      if m > 0 {
        assert stack[m - 1] == below[m - 1];
      }
    } else {
      assert m == |stack|;
    }
  }

  lemma {:induction false} ReversedAppend(a: seq<Token>, b: seq<Token>)
    ensures Reversed(a + b) == Reversed(b) + Reversed(a)
  {
  }

  lemma EmitAllTwice(c: Converter, a: seq<Token>, b: seq<Token>)
    ensures EmitAll(EmitAll(c, a), b) == EmitAll(c, a + b)
  {
    if |c.functions| > 0 {
      var n := |c.functions| - 1;
      var f := c.functions[n];
      assert f.subtokens + a + b == f.subtokens + (a + b);
    } else {
      assert c.postfix + a + b == c.postfix + (a + b);
    }
  }

  lemma EmitAllNothing(c: Converter)
    ensures EmitAll(c, []) == c
  {
    if |c.functions| > 0 {
      var n := |c.functions| - 1;
      assert c.functions[n].subtokens + [] == c.functions[n].subtokens;
      assert c.functions[n := c.functions[n]] == c.functions;
    } else {
      assert c.postfix + [] == c.postfix;
    }
  }

  lemma WithTopEmitAll(c: Converter, scope: seq<Token>, s: seq<Token>)
    requires |c.scopes| > 0
    ensures WithTop(EmitAll(c, s), scope) == EmitAll(WithTop(c, scope), s)
  {
  }

  lemma WithTopTwice(c: Converter, x: seq<Token>, y: seq<Token>)
    requires |c.scopes| > 0
    ensures WithTop(WithTop(c, x), y) == WithTop(c, y)
  {
    assert c.scopes[|c.scopes| - 1 := x][|c.scopes| - 1 := y] == c.scopes[|c.scopes| - 1 := y];
  }

  /** Popping one more operator continues a partial pop. */
  lemma PopToStep(c: Converter, m: nat)
    requires |c.scopes| > 0 && 0 < m <= |Top(c)|
    ensures var r := PopTo(c, m);
      Emit(WithTop(r, Top(r)[..m - 1]), Top(r)[m - 1]) == PopTo(c, m - 1)
  {
    var top := Top(c);
    var rest := Reversed(top[m..]);
    ReversedPrepend(top, m);
    PopToUnpop(c, m);
    EmitAllTwice(WithTop(c, top[..m - 1]), rest, [top[m - 1]]);
  }

  lemma ReversedPrepend(s: seq<Token>, m: nat)
    requires 0 < m <= |s|
    ensures Reversed(s[m - 1..]) == Reversed(s[m..]) + [s[m - 1]]
  {
    assert s[m - 1..] == [s[m - 1]] + s[m..];
    ReversedAppend([s[m - 1]], s[m..]);
  }

  /** Lowering the innermost scope after a pop is the same as popping from
      the lower scope. */
  lemma PopToUnpop(c: Converter, m: nat)
    requires |c.scopes| > 0 && 0 < m <= |Top(c)|
    ensures var r := PopTo(c, m);
      Top(r)[..m - 1] == Top(c)[..m - 1] && Top(r)[m - 1] == Top(c)[m - 1]
      && WithTop(r, Top(c)[..m - 1]) == EmitAll(WithTop(c, Top(c)[..m - 1]), Reversed(Top(c)[m..]))
  {
    var top := Top(c);
    var w := WithTop(c, top[..m]);
    WithTopEmitAll(w, top[..m - 1], Reversed(top[m..]));
    WithTopTwice(c, top[..m], top[..m - 1]);
  }

  /** Popping nothing changes nothing. */
  lemma PopToNothing(c: Converter)
    requires |c.scopes| > 0
    ensures PopTo(c, |Top(c)|) == c
  {
    assert Top(c)[|Top(c)|..] == [];
    assert Top(c)[..|Top(c)|] == Top(c);
    assert Reversed<Token>([]) == [];
    assert WithTop(c, Top(c)) == c;
    EmitAllNothing(c);
  }

  /** Close the innermost open function: it is finished and goes to the sink
      that encloses it. With no open function nothing happens (popping an empty
      array yields undefined). */
  function CloseFunction(c: Converter): (r: Converter)
    ensures r.scopes == c.scopes && r.hasCoefficient == c.hasCoefficient
    ensures |c.functions| > 0 ==> |r.functions| == |c.functions| - 1
    ensures |c.functions| == 0 ==> r == c
  {
    if |c.functions| == 0 then c
    else
      var n := |c.functions| - 1;
      Emit(c.(functions := c.functions[..n]), c.functions[n])
  }

  /** A closed function is the last token of the enclosing sink; nothing
      else changes. */
  lemma CloseFunctionSink(c: Converter)
    requires |c.functions| > 0
    ensures var n := |c.functions| - 1;
      var r := CloseFunction(c);
      Sink(r) == Sink(c.(functions := c.functions[..n])) + [c.functions[n]]
      && (n > 0 ==> r.postfix == c.postfix && r.functions[..n - 1] == c.functions[..n - 1])
  {
    var n := |c.functions| - 1;
    if n > 0 {
      assert CloseFunction(c).functions[..n - 1] == c.functions[..n - 1];
    }
  }

  /** Whether `t` starts a factor that an operand before it multiplies. */
  predicate StartsFactor(t: Token) {
    IsVariable(t) || t.kind == OPEN_PARENTHESIS.kind || IsConstant(t) || IsFunction(t)
  }

  /** One iteration of the conversion loop, on the token at position `i`. */
  function Step(c: Converter, infix: seq<Token>, i: nat): Result<Converter, PostfixError>
    requires i < |infix|
  {
    var t := infix[i];
    if t.kind == SPACE.kind then Ok(c)
    else if IsOperand(t) then
      var hasNext := i + 1 < |infix|;
      var coefficient := hasNext && StartsFactor(infix[i + 1]);
      var separator := hasNext && !IsOperand(infix[i + 1]) && infix[i + 1].kind != DECIMAL.kind;
      var d := Emit(c.(hasCoefficient := c.hasCoefficient || coefficient), t);
      Ok(if separator then Emit(d, SPACE) else d)
    else if IsOperator(t) then
      if t.kind == SUBTRACTION.kind && i + 1 >= |infix| then Err(UndefinedAccess)
      else if t.kind == SUBTRACTION.kind && IsOperand(infix[i + 1]) then Ok(Emit(c, NEGATIVE))
      else if t.kind == SUBTRACTION.kind && StartsFactor(infix[i + 1]) then
        PushOperator(Emit(Emit(Emit(c, NEGATIVE), ONE), SPACE), MULTIPLICATION)
      else if |c.scopes| == 0 then Err(UndefinedAccess)
      else PushOperator(PopBinding(c, Precedence(t)), t)
    else if IsFunction(t) then
      var d :- ApplyCoefficient(c);
      Ok(d.(functions := d.functions + [t]))
    else if IsConstant(t) || IsVariable(t) then
      var d :- ApplyCoefficient(c);
      Ok(Emit(d, t))
    else if t.kind == DECIMAL.kind then Ok(Emit(c, t))
    else if t.kind == OPEN_PARENTHESIS.kind then
      var d :- ApplyCoefficient(c);
      PushOperator(d, OPEN_PARENTHESIS)
    else if t.kind == CLOSE_PARENTHESIS.kind then
      if |c.scopes| == 0 then Err(UndefinedAccess)
      else
        var d := DrainToOpen(c);
        // Discard the marker; popping an empty scope does nothing.
        Ok(if |Top(d)| == 0 then d else WithTop(d, Top(d)[..|Top(d)| - 1]))
    else if t.kind == FUNCTION_OPEN.kind then Ok(c.(scopes := c.scopes + [[]]))
    else if t.kind == FUNCTION_CLOSE.kind then
      if |c.scopes| == 0 then Err(UndefinedAccess)
      else
        var d := CloseFunction(DrainToOpen(c));
        Ok(d.(scopes := d.scopes[..|d.scopes| - 1]))
    else Err(UnknownToken)
  }

  /** The conversion loop from position `i`. */
  function Convert(c: Converter, infix: seq<Token>, i: nat): Result<Converter, PostfixError>
    decreases |infix| - i
  {
    if i >= |infix| then Ok(c)
    else
      var d :- Step(c, infix, i);
      Convert(d, infix, i + 1)
  }

  /** The output with every still-open function appended where it was read. */
  function CloseAll(c: Converter): seq<Token>
    decreases |c.functions|
  {
    if |c.functions| == 0 then c.postfix else CloseAll(CloseFunction(c))
  }

  /** After the loop: exactly the base scope must be left; it is drained to the
      output in LIFO order and must hold no OPEN_PARENTHESIS marker. */
  function Finish(c: Converter): (r: Result<seq<Token>, PostfixError>)
    ensures r.Err? <==>
      |c.scopes| != 1 || exists k :: 0 <= k < |c.scopes[0]| && c.scopes[0][k].kind == OPEN_PARENTHESIS.kind
    ensures r.Ok? ==> r.value == CloseAll(c) + Reversed(c.scopes[0])
  {
    if |c.scopes| != 1 then Err(InvalidExpressionFormat)
    else if exists k :: 0 <= k < |c.scopes[0]| && c.scopes[0][k].kind == OPEN_PARENTHESIS.kind then
      Err(InvalidParenthesisFormat)
    else Ok(CloseAll(c) + Reversed(c.scopes[0]))
  }

  /** What `infixToPostfix` returns for `infix`. */
  function InfixToPostfixSpec(infix: seq<Token>): Result<seq<Token>, PostfixError> {
    var c :- Convert(INITIAL, infix, 0);
    Finish(c)
  }

  /** Pushing onto the innermost scope leaves the sink alone. */
  lemma WithTopKeepsSink(c: Converter, scope: seq<Token>)
    requires |c.scopes| > 0
    ensures Sink(WithTop(c, scope)) == Sink(c)
    ensures WithTop(c, scope).scopes[..|c.scopes| - 1] == c.scopes[..|c.scopes| - 1]
  {
  }

  /** A SPACE token is skipped. */
  lemma SpaceSkipped(c: Converter, infix: seq<Token>, i: nat)
    requires i < |infix| && infix[i].kind == SPACE.kind
    ensures Step(c, infix, i) == Ok(c)
  {
  }

  /** An operand goes to the sink, followed by a SPACE separator exactly when a
      next token exists and is neither an operand nor a DECIMAL; it raises the
      coefficient flag exactly when the next token starts a factor. */
  lemma OperandToSink(c: Converter, infix: seq<Token>, i: nat)
    requires i < |infix| && IsOperand(infix[i])
    ensures var r := Step(c, infix, i);
      var separated := i + 1 < |infix| && !IsOperand(infix[i + 1]) && infix[i + 1].kind != DECIMAL.kind;
      r.Ok? && r.value.scopes == c.scopes && |r.value.functions| == |c.functions|
      && Sink(r.value) == Sink(c) + [infix[i]] + (if separated then [SPACE] else [])
      && (r.value.hasCoefficient <==> c.hasCoefficient || (i + 1 < |infix| && StartsFactor(infix[i + 1])))
  {
  }

  /** A `-` as the last token reads past the end of the input. */
  lemma TrailingMinusFails(c: Converter, infix: seq<Token>)
    requires |infix| > 0 && infix[|infix| - 1].kind == SUBTRACTION.kind
    ensures Step(c, infix, |infix| - 1) == Err(UndefinedAccess)
  {
  }

  /** A `-` before an operand is a sign: NEGATIVE goes to the sink and no
      operator is pushed. */
  lemma MinusBeforeOperand(c: Converter, infix: seq<Token>, i: nat)
    requires i + 1 < |infix| && infix[i].kind == SUBTRACTION.kind && IsOperand(infix[i + 1])
    ensures var r := Step(c, infix, i);
      r.Ok? && r.value.scopes == c.scopes && r.value.hasCoefficient == c.hasCoefficient
      && |r.value.functions| == |c.functions| && Sink(r.value) == Sink(c) + [NEGATIVE]
  {
  }

  /** A `-` before a function, constant, variable or `(` multiplies by -1:
      NEGATIVE, ONE and a separator go to the sink and MULTIPLICATION is pushed. */
  lemma MinusBeforeFactor(c: Converter, infix: seq<Token>, i: nat)
    requires i + 1 < |infix| && infix[i].kind == SUBTRACTION.kind && StartsFactor(infix[i + 1])
    ensures var r := Step(c, infix, i);
      (|c.scopes| == 0 <==> r == Err(UndefinedAccess))
      && (|c.scopes| > 0 ==>
            r.Ok? && Sink(r.value) == Sink(c) + [NEGATIVE, ONE, SPACE]
            && Top(r.value) == Top(c) + [MULTIPLICATION]
            && r.value.scopes[..|c.scopes| - 1] == c.scopes[..|c.scopes| - 1]
            && r.value.hasCoefficient == c.hasCoefficient)
  {
    assert !IsOperand(infix[i + 1]);
    if |c.scopes| > 0 {
      var d := Emit(Emit(Emit(c, NEGATIVE), ONE), SPACE);
      assert Step(c, infix, i) == PushOperator(d, MULTIPLICATION);
      WithTopKeepsSink(d, Top(d) + [MULTIPLICATION]);
    }
  }

  /** Any other operator first pops the run of operators on top of the
      innermost scope that bind at least as tightly, in LIFO order, and then
      pushes itself onto what is left. */
  lemma OperatorPopsThenPushes(c: Converter, infix: seq<Token>, i: nat)
    requires i < |infix| && IsOperator(infix[i]) && |c.scopes| > 0
    requires infix[i].kind == SUBTRACTION.kind ==>
      i + 1 < |infix| && !IsOperand(infix[i + 1]) && !StartsFactor(infix[i + 1])
    ensures var r := Step(c, infix, i);
      var p := Precedence(infix[i]);
      r.Ok? && r.value.hasCoefficient == c.hasCoefficient
      && r.value.scopes[..|c.scopes| - 1] == c.scopes[..|c.scopes| - 1]
      && exists m :: 0 <= m <= |Top(c)| && Top(r.value) == Top(c)[..m] + [infix[i]]
           && Sink(r.value) == Sink(c) + Reversed(Top(c)[m..])
           && (forall k :: m <= k < |Top(c)| ==> p <= Precedence(Top(c)[k]))
           && (m > 0 ==> Precedence(Top(c)[m - 1]) < p)
  {
    UnfoldBinary(c, infix, i);
    PopThenPush(c, infix[i]);
  }

  lemma PopThenPush(c: Converter, t: Token)
    requires |c.scopes| > 0
    ensures var e := WithTop(PopBinding(c, Precedence(t)), Top(PopBinding(c, Precedence(t))) + [t]);
      var p := Precedence(t);
      e.hasCoefficient == c.hasCoefficient
      && e.scopes[..|c.scopes| - 1] == c.scopes[..|c.scopes| - 1]
      && exists m :: 0 <= m <= |Top(c)| && Top(e) == Top(c)[..m] + [t]
           && Sink(e) == Sink(c) + Reversed(Top(c)[m..])
           && (forall k :: m <= k < |Top(c)| ==> p <= Precedence(Top(c)[k]))
           && (m > 0 ==> Precedence(Top(c)[m - 1]) < p)
  {
    var p := Precedence(t);
    var m := PopHeight(Top(c), p);
    PopHeightPops(Top(c), p);
    var d := PopTo(c, m);
    var e := WithTop(d, Top(d) + [t]);
    WithTopKeepsSink(d, Top(d) + [t]);
    assert Top(e) == Top(c)[..m] + [t] && Sink(e) == Sink(c) + Reversed(Top(c)[m..]);
  }

  /** A pending coefficient becomes a MULTIPLICATION pushed before the
      function, constant, variable or `(` that follows, and is cleared. */
  lemma CoefficientApplied(c: Converter, infix: seq<Token>, i: nat)
    requires i < |infix| && c.hasCoefficient && |c.scopes| > 0
    requires IsFunction(infix[i]) || IsConstant(infix[i]) || IsVariable(infix[i])
             || infix[i].kind == OPEN_PARENTHESIS.kind
    ensures var r := Step(c, infix, i);
      r.Ok? && !r.value.hasCoefficient
      && r.value.scopes[..|c.scopes| - 1] == c.scopes[..|c.scopes| - 1]
      && Top(r.value) == Top(c) + [MULTIPLICATION]
                         + (if infix[i].kind == OPEN_PARENTHESIS.kind then [OPEN_PARENTHESIS] else [])
  {
  }

  /** FUNCTION_OPEN opens a fresh empty operator scope. */
  lemma FunctionOpenStep(c: Converter, infix: seq<Token>, i: nat)
    requires i < |infix| && infix[i].kind == FUNCTION_OPEN.kind
    ensures Step(c, infix, i) == Ok(c.(scopes := c.scopes + [[]]))
  {
  }

  /** CLOSE_PARENTHESIS pops the operators above the innermost OPEN marker to
      the sink in LIFO order and discards the marker. */
  lemma CloseParenthesisStep(c: Converter, infix: seq<Token>, i: nat)
    requires i < |infix| && infix[i].kind == CLOSE_PARENTHESIS.kind && |c.scopes| > 0
    ensures var r := Step(c, infix, i);
      r.Ok? && r.value.hasCoefficient == c.hasCoefficient
      && r.value.scopes[..|c.scopes| - 1] == c.scopes[..|c.scopes| - 1]
      && exists m :: 0 <= m <= |Top(c)| && Sink(r.value) == Sink(c) + Reversed(Top(c)[m..])
           && (forall k :: m <= k < |Top(c)| ==> Top(c)[k].kind != OPEN_PARENTHESIS.kind)
           && (m == 0 ==> Top(r.value) == [])
           && (m > 0 ==> Top(c)[m - 1].kind == OPEN_PARENTHESIS.kind && Top(r.value) == Top(c)[..m - 1])
  {
    UnfoldClose(c, infix, i);
    var m := OpenHeight(Top(c));
    OpenHeightPops(Top(c));
    var d := PopTo(c, m);
    if m > 0 {
      WithTopKeepsSink(d, Top(d)[..m - 1]);
      assert Top(d)[..m - 1] == Top(c)[..m - 1];
    }
  }

  /** FUNCTION_CLOSE pops the operators above the innermost OPEN marker into
      the open function's arguments, then closes both the function, which goes
      to the enclosing sink, and the scope. */
  lemma FunctionCloseStep(c: Converter, infix: seq<Token>, i: nat)
    requires i < |infix| && infix[i].kind == FUNCTION_CLOSE.kind
    requires |c.scopes| > 0 && |c.functions| > 0
    ensures var r := Step(c, infix, i);
      var n := |c.functions| - 1;
      var f := c.functions[n];
      r.Ok? && r.value.hasCoefficient == c.hasCoefficient
      && r.value.scopes == c.scopes[..|c.scopes| - 1]
      && |r.value.functions| == n
      && (n > 0 ==> r.value.functions[..n - 1] == c.functions[..n - 1] && r.value.postfix == c.postfix)
      && exists m :: 0 <= m <= |Top(c)|
           && (forall k :: m <= k < |Top(c)| ==> Top(c)[k].kind != OPEN_PARENTHESIS.kind)
           && Sink(r.value) == Sink(c.(functions := c.functions[..n]))
                               + [f.(subtokens := f.subtokens + Reversed(Top(c)[m..]))]
  {
    var n := |c.functions| - 1;
    var d := DrainToOpen(c);
    var m := |Top(d)|;
    DrainIntoFunction(c);
    var e := CloseFunction(d);
    CloseFunctionSink(d);
    UnfoldFunctionClose(c, infix, i);
    assert Sink(d.(functions := d.functions[..n])) == Sink(c.(functions := c.functions[..n]));
    assert (forall k :: m <= k < |Top(c)| ==> Top(c)[k].kind != OPEN_PARENTHESIS.kind);
  }

  lemma UnfoldFunctionClose(c: Converter, infix: seq<Token>, i: nat)
    requires i < |infix| && infix[i].kind == FUNCTION_CLOSE.kind && |c.scopes| > 0
    ensures var e := CloseFunction(DrainToOpen(c));
      Step(c, infix, i) == Ok(e.(scopes := e.scopes[..|e.scopes| - 1]))
  {
  }

  /** With a function open, the parenthesis loop pops into its arguments. */
  lemma DrainIntoFunction(c: Converter)
    requires |c.scopes| > 0 && |c.functions| > 0
    ensures var d := DrainToOpen(c);
      var n := |c.functions| - 1;
      d.postfix == c.postfix && d.hasCoefficient == c.hasCoefficient
      && |d.scopes| == |c.scopes| && d.scopes[..|c.scopes| - 1] == c.scopes[..|c.scopes| - 1]
      && |d.functions| == |c.functions| && d.functions[..n] == c.functions[..n]
      && |Top(d)| <= |Top(c)|
      && (forall k :: |Top(d)| <= k < |Top(c)| ==> Top(c)[k].kind != OPEN_PARENTHESIS.kind)
      && d.functions[n] == c.functions[n].(subtokens := c.functions[n].subtokens + Reversed(Top(c)[|Top(d)|..]))
  {
    var m := OpenHeight(Top(c));
    OpenHeightPops(Top(c));
    EmitAllFrame(WithTop(c, Top(c)[..m]), Reversed(Top(c)[m..]));
  }

  // One branch of `Step` at a time.

  lemma UnfoldOperand(c: Converter, infix: seq<Token>, i: nat)
    requires i < |infix| && IsOperand(infix[i])
    ensures var coefficient := i + 1 < |infix| && StartsFactor(infix[i + 1]);
      var separated := i + 1 < |infix| && !IsOperand(infix[i + 1]) && infix[i + 1].kind != DECIMAL.kind;
      var d := Emit(c.(hasCoefficient := c.hasCoefficient || coefficient), infix[i]);
      Step(c, infix, i) == Ok(if separated then Emit(d, SPACE) else d)
  {
  }

  lemma UnfoldSign(c: Converter, infix: seq<Token>, i: nat)
    requires i + 1 < |infix| && infix[i].kind == SUBTRACTION.kind && IsOperand(infix[i + 1])
    ensures Step(c, infix, i) == Ok(Emit(c, NEGATIVE))
  {
  }

  lemma UnfoldNegatedFactor(c: Converter, infix: seq<Token>, i: nat)
    requires i + 1 < |infix| && infix[i].kind == SUBTRACTION.kind && StartsFactor(infix[i + 1])
    ensures Step(c, infix, i) == PushOperator(Emit(Emit(Emit(c, NEGATIVE), ONE), SPACE), MULTIPLICATION)
  {
    assert !IsOperand(infix[i + 1]);
  }

  lemma UnfoldBinary(c: Converter, infix: seq<Token>, i: nat)
    requires i < |infix| && IsOperator(infix[i]) && |c.scopes| > 0
    requires infix[i].kind == SUBTRACTION.kind ==>
      i + 1 < |infix| && !IsOperand(infix[i + 1]) && !StartsFactor(infix[i + 1])
    ensures Step(c, infix, i) == PushOperator(PopBinding(c, Precedence(infix[i])), infix[i])
  {
  }

  lemma UnfoldOpening(c: Converter, infix: seq<Token>, i: nat)
    requires i < |infix|
    requires IsFunction(infix[i]) || IsConstant(infix[i]) || IsVariable(infix[i])
             || infix[i].kind == OPEN_PARENTHESIS.kind
    ensures var t := infix[i];
      var d := ApplyCoefficient(c);
      Step(c, infix, i) ==
        if d.Err? then Err(d.error)
        else if IsFunction(t) then Ok(d.value.(functions := d.value.functions + [t]))
        else if t.kind == OPEN_PARENTHESIS.kind then PushOperator(d.value, OPEN_PARENTHESIS)
        else Ok(Emit(d.value, t))
  {
  }

  lemma UnfoldClose(c: Converter, infix: seq<Token>, i: nat)
    requires i < |infix| && infix[i].kind == CLOSE_PARENTHESIS.kind && |c.scopes| > 0
    ensures var d := DrainToOpen(c);
      Step(c, infix, i) == Ok(if |Top(d)| == 0 then d else WithTop(d, Top(d)[..|Top(d)| - 1]))
  {
  }

  /** The operator loop of `infixToPostfix`. */
  method PopOperators(c: Converter, p: int) returns (r: Converter)
    requires |c.scopes| > 0
    ensures r == PopBinding(c, p)
  {
    r := c;
    ghost var m: nat := |Top(c)|;
    PopToNothing(c);
    while |Top(r)| != 0 && p <= Precedence(Top(r)[|Top(r)| - 1])
      invariant m <= |Top(c)| && r == PopTo(c, m)
      invariant PopHeight(Top(c)[..m], p) == PopHeight(Top(c), p)
      decreases m
    {
      var stack := Top(r);
      var n := |stack| - 1;
      assert stack[n] == Top(c)[m - 1];
      PopToStep(c, m);
      PopHeightStep(Top(c), m, p);
      r := Emit(WithTop(r, stack[..n]), stack[n]);
      m := n;
    }
    PopHeightStops(Top(r), p);
  }

  /** The parenthesis loop of `infixToPostfix`. */
  method PopToOpen(c: Converter) returns (r: Converter)
    requires |c.scopes| > 0
    ensures r == DrainToOpen(c)
  {
    r := c;
    ghost var m: nat := |Top(c)|;
    PopToNothing(c);
    while |Top(r)| != 0 && Top(r)[|Top(r)| - 1].kind != OPEN_PARENTHESIS.kind
      invariant m <= |Top(c)| && r == PopTo(c, m)
      invariant OpenHeight(Top(c)[..m]) == OpenHeight(Top(c))
      decreases m
    {
      var stack := Top(r);
      var n := |stack| - 1;
      OpenPopStep(c, m, r);
      r := Emit(WithTop(r, stack[..n]), stack[n]);
      m := n;
    }
    OpenPopDone(c, m, r);
  }

  /** The parenthesis loop stops at an empty scope or a marker, which is
      where the specification stops too. */
  lemma OpenPopDone(c: Converter, m: nat, r: Converter)
    requires |c.scopes| > 0 && m <= |Top(c)| && r == PopTo(c, m)
    requires OpenHeight(Top(c)[..m]) == OpenHeight(Top(c))
    requires |Top(r)| == 0 || Top(r)[|Top(r)| - 1].kind == OPEN_PARENTHESIS.kind
    ensures r == DrainToOpen(c)
  {
    assert OpenHeight(Top(r)) == |Top(r)|;
  }

  /** One turn of the parenthesis loop: the top entry, which is no marker,
      goes to the sink, and the loop still stops at the same height. */
  lemma OpenPopStep(c: Converter, m: nat, r: Converter)
    requires |c.scopes| > 0 && m <= |Top(c)| && r == PopTo(c, m)
    requires |Top(r)| != 0 && Top(r)[|Top(r)| - 1].kind != OPEN_PARENTHESIS.kind
    requires OpenHeight(Top(c)[..m]) == OpenHeight(Top(c))
    ensures var n := |Top(r)| - 1;
      n == m - 1 && Emit(WithTop(r, Top(r)[..n]), Top(r)[n]) == PopTo(c, n)
    ensures OpenHeight(Top(c)[..m - 1]) == OpenHeight(Top(c))
  {
    PopToStep(c, m);
    OpenHeightStep(Top(c), m);
  }

  /** Popping one operator that binds tightly enough leaves the final height
      unchanged. */
  lemma PopHeightStep(stack: seq<Token>, m: nat, p: int)
    requires 0 < m <= |stack| && p <= Precedence(stack[m - 1])
    ensures PopHeight(stack[..m - 1], p) == PopHeight(stack[..m], p)
  {
    assert stack[..m][..m - 1] == stack[..m - 1];
  }

  /** The operator loop stops at an empty scope or a looser operator. */
  lemma PopHeightStops(stack: seq<Token>, p: int)
    requires |stack| == 0 || p > Precedence(stack[|stack| - 1])
    ensures PopHeight(stack, p) == |stack|
  {
  }

  lemma OpenHeightStep(stack: seq<Token>, m: nat)
    requires 0 < m <= |stack| && stack[m - 1].kind != OPEN_PARENTHESIS.kind
    ensures OpenHeight(stack[..m - 1]) == OpenHeight(stack[..m])
  {
    assert stack[..m][..m - 1] == stack[..m - 1];
  }

  /** The body of the conversion loop for the token at position `i`. */
  method ConvertToken(c: Converter, infix: seq<Token>, i: nat) returns (r: Result<Converter, PostfixError>)
    requires i < |infix|
    ensures r == Step(c, infix, i)
  {
    var t := infix[i];
    if t.kind == SPACE.kind {
      return Ok(c);
    } else if IsOperand(t) {
      var separator := false;
      var d := c;
      if i + 1 < |infix| {
        if StartsFactor(infix[i + 1]) {
          d := d.(hasCoefficient := true);
        }
        if !IsOperand(infix[i + 1]) && infix[i + 1].kind != DECIMAL.kind {
          separator := true;
        }
      }
      d := Emit(d, t);
      if separator {
        d := Emit(d, SPACE);
      }
      return Ok(d);
    } else if IsOperator(t) {
      if t.kind == SUBTRACTION.kind && i + 1 >= |infix| {
        return Err(UndefinedAccess);
      } else if t.kind == SUBTRACTION.kind && IsOperand(infix[i + 1]) {
        return Ok(Emit(c, NEGATIVE));
      } else if t.kind == SUBTRACTION.kind && StartsFactor(infix[i + 1]) {
        var d := Emit(Emit(Emit(c, NEGATIVE), ONE), SPACE);
        return PushOperator(d, MULTIPLICATION);
      } else if |c.scopes| == 0 {
        return Err(UndefinedAccess);
      } else {
        var d := PopOperators(c, Precedence(t));
        return PushOperator(d, t);
      }
    } else if IsFunction(t) {
      var d :- ApplyCoefficient(c);
      return Ok(d.(functions := d.functions + [t]));
    } else if IsConstant(t) || IsVariable(t) {
      var d :- ApplyCoefficient(c);
      return Ok(Emit(d, t));
    } else if t.kind == DECIMAL.kind {
      return Ok(Emit(c, t));
    } else if t.kind == OPEN_PARENTHESIS.kind {
      var d :- ApplyCoefficient(c);
      return PushOperator(d, OPEN_PARENTHESIS);
    } else if t.kind == CLOSE_PARENTHESIS.kind {
      if |c.scopes| == 0 {
        return Err(UndefinedAccess);
      }
      var d := PopToOpen(c);
      if |Top(d)| != 0 {
        d := WithTop(d, Top(d)[..|Top(d)| - 1]);
      }
      return Ok(d);
    } else if t.kind == FUNCTION_OPEN.kind {
      return Ok(c.(scopes := c.scopes + [[]]));
    } else if t.kind == FUNCTION_CLOSE.kind {
      if |c.scopes| == 0 {
        return Err(UndefinedAccess);
      }
      var d := PopToOpen(c);
      d := CloseFunction(d);
      return Ok(d.(scopes := d.scopes[..|d.scopes| - 1]));
    } else {
      return Err(UnknownToken);
    }
  }

  /** The end of `infixToPostfix`: check the scopes, then drain the base scope. */
  method FinishConversion(c: Converter) returns (r: Result<seq<Token>, PostfixError>)
    ensures r == Finish(c)
  {
    if |c.scopes| != 1 {
      return Err(InvalidExpressionFormat);
    }
    var postfix := CloseOpenFunctions(c);
    r := DrainBase(postfix, c.scopes[0]);
  }

  /** The still-open functions are already in the output through their shared
      references; here they are appended explicitly. */
  method CloseOpenFunctions(c: Converter) returns (postfix: seq<Token>)
    ensures postfix == CloseAll(c)
  {
    var d := c;
    while |d.functions| != 0
      invariant CloseAll(d) == CloseAll(c)
      decreases |d.functions|
    {
      d := CloseFunction(d);
    }
    postfix := d.postfix;
  }

  /** Pop the base scope to the output; an OPEN_PARENTHESIS marker met on the
      way is an error. */
  method DrainBase(postfix: seq<Token>, base: seq<Token>) returns (r: Result<seq<Token>, PostfixError>)
    ensures r.Err? <==> exists k :: 0 <= k < |base| && base[k].kind == OPEN_PARENTHESIS.kind
    ensures r.Err? ==> r.error == InvalidParenthesisFormat
    ensures r.Ok? ==> r.value == postfix + Reversed(base)
  {
    var out := postfix;
    var stack := base;
    while |stack| != 0
      invariant |stack| <= |base| && stack == base[..|stack|]
      invariant out == postfix + Reversed(base[|stack|..])
      invariant forall k :: |stack| <= k < |base| ==> base[k].kind != OPEN_PARENTHESIS.kind
    {
      var n := |stack| - 1;
      if stack[n].kind == OPEN_PARENTHESIS.kind {
        assert base[n].kind == OPEN_PARENTHESIS.kind;
        return Err(InvalidParenthesisFormat);
      }
      assert stack[n] == base[n];
      ReversedPrepend(base, n + 1);
      assert out + [stack[n]] == postfix + (Reversed(base[n + 1..]) + [base[n]]);
      out := out + [stack[n]];
      stack := stack[..n];
    }
    assert base[0..] == base;
    return Ok(out);
  }

  /** `infixToPostfix`: the conversion loop, then the end-of-input checks. */
  method InfixToPostfix(infix: seq<Token>) returns (r: Result<seq<Token>, PostfixError>)
    ensures r == InfixToPostfixSpec(infix)
  {
    var c := INITIAL;
    var i := 0;
    while i < |infix|
      invariant i <= |infix|
      invariant Convert(INITIAL, infix, 0) == Convert(c, infix, i)
    {
      var next := ConvertToken(c, infix, i);
      if next.Err? {
        return Err(next.error);
      }
      c := next.value;
      i := i + 1;
    }
    r := FinishConversion(c);
  }
}

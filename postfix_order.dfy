/** What the scoped shunting-yard keeps: read without its operators and
    separators, the postfix output lists the input's operands, decimal points,
    constants, variables and functions in the order they were read, each
    function followed by the contents of its arguments. A `-` read as a sign
    contributes NEGATIVE (and the factor -1 of a negated factor contributes
    NEGATIVE ONE). Operators only move; nothing else is created or lost. */
module PostfixOrder {
  import opened Outcomes
  import opened Stacks
  import opened Tokens
  import opened ShuntingYard

  /** Tokens that only give the expression its structure. */
  predicate Structural(t: Token) {
    IsOperator(t) || t.kind == SPACE.kind || t.kind == OPEN_PARENTHESIS.kind
    || t.kind == CLOSE_PARENTHESIS.kind || t.kind == FUNCTION_OPEN.kind
    || t.kind == FUNCTION_CLOSE.kind
  }

  /** The non-structural tokens of `s` in reading order, each function
      stripped of its arguments and followed by their leaves. */
  function Leaves(s: seq<Token>): seq<Token>
    decreases s
  {
    if s == [] then []
    else
      (if Structural(s[0]) then [] else [s[0].(subtokens := [])] + Leaves(s[0].subtokens))
      + Leaves(s[1..])
  }

  /** A function that is still open contributes itself, then its arguments. */
  function FunctionLeaves(f: Token): seq<Token> {
    [f.(subtokens := [])] + Leaves(f.subtokens)
  }

  function OpenLeaves(fs: seq<Token>): seq<Token> {
    if fs == [] then [] else OpenLeaves(fs[..|fs| - 1]) + FunctionLeaves(fs[|fs| - 1])
  }

  /** Everything emitted so far, in reading order. */
  function StateLeaves(c: Converter): seq<Token> {
    Leaves(c.postfix) + OpenLeaves(c.functions)
  }

  /** Operator scopes hold only operators and OPEN_PARENTHESIS markers. */
  predicate ScopesOk(c: Converter) {
    forall j, k :: 0 <= j < |c.scopes| && 0 <= k < |c.scopes[j]| ==>
      IsOperator(c.scopes[j][k]) || c.scopes[j][k].kind == OPEN_PARENTHESIS.kind
  }

  /** What the token at position `i` adds to the leaves of the output. */
  function Contribution(infix: seq<Token>, i: nat): seq<Token>
    requires i < |infix|
  {
    var t := infix[i];
    if t.kind == SUBTRACTION.kind && i + 1 < |infix| && IsOperand(infix[i + 1]) then [NEGATIVE]
    else if t.kind == SUBTRACTION.kind && i + 1 < |infix| && StartsFactor(infix[i + 1]) then [NEGATIVE, ONE]
    else Leaves([t])
  }

  /** The leaves the tokens from position `i` on contribute. */
  function Expected(infix: seq<Token>, i: nat): seq<Token>
    decreases |infix| - i
  {
    if i >= |infix| then [] else Contribution(infix, i) + Expected(infix, i + 1)
  }

  lemma {:induction false} LeavesAppend(a: seq<Token>, b: seq<Token>)
    ensures Leaves(a + b) == Leaves(a) + Leaves(b)
    decreases a
  {
    if a == [] {
      assert a + b == b;
    } else {
      assert (a + b)[0] == a[0];
      assert (a + b)[1..] == a[1..] + b;
      LeavesAppend(a[1..], b);
    }
  }

  lemma LeavesOne(t: Token)
    ensures Leaves([t]) == if Structural(t) then [] else FunctionLeaves(t)
  {
    assert [t][1..] == [];
  }

  /** A sequence of operators has no leaves. */
  lemma {:induction false} OperatorsHaveNoLeaves(s: seq<Token>)
    requires forall k :: 0 <= k < |s| ==> IsOperator(s[k])
    ensures Leaves(s) == []
    decreases s
  {
    if s != [] {
      OperatorsHaveNoLeaves(s[1..]);
    }
  }

  /** Growing the sink by `s`, and changing nothing else that holds tokens,
      adds the leaves of `s`. */
  lemma SinkGrowth(c: Converter, r: Converter, s: seq<Token>)
    requires |r.functions| == |c.functions|
    requires |c.functions| == 0 ==> r.postfix == c.postfix + s
    requires |c.functions| > 0 ==>
      var n := |c.functions| - 1;
      r.postfix == c.postfix && r.functions[..n] == c.functions[..n]
      && r.functions[n] == c.functions[n].(subtokens := c.functions[n].subtokens + s)
    ensures StateLeaves(r) == StateLeaves(c) + Leaves(s)
  {
    if |c.functions| == 0 {
      LeavesAppend(c.postfix, s);
    } else {
      var n := |c.functions| - 1;
      assert r.functions[..n] == c.functions[..n];
      assert r.functions[n].(subtokens := []) == c.functions[n].(subtokens := []);
      LeavesAppend(c.functions[n].subtokens, s);
    }
  }

  lemma EmitLeaves(c: Converter, t: Token)
    ensures StateLeaves(Emit(c, t)) == StateLeaves(c) + Leaves([t])
  {
    SinkGrowth(c, Emit(c, t), [t]);
  }

  /** Only operators are popped, so popping adds no leaves and keeps the
      invariant. */
  lemma PopToLeaves(c: Converter, m: nat)
    requires |c.scopes| > 0 && m <= |Top(c)| && Consistent(c)
    requires forall k :: m <= k < |Top(c)| ==> IsOperator(Top(c)[k])
    ensures var r := PopTo(c, m);
      StateLeaves(r) == StateLeaves(c) && Consistent(r)
  {
    var top := Top(c);
    var w := WithTop(c, top[..m]);
    var s := Reversed(top[m..]);
    forall k | 0 <= k < |s| ensures IsOperator(s[k]) {
      assert s[k] == top[m..][|s| - 1 - k] == top[m + (|s| - 1 - k)];
    }
    OperatorsHaveNoLeaves(s);
    EmitAllFrame(w, s);
    var r := EmitAll(w, s);
    SinkGrowth(w, r, s);
    assert StateLeaves(r) == StateLeaves(c);
    var n := |c.scopes| - 1;
    forall j, k | 0 <= j < |r.scopes| && 0 <= k < |r.scopes[j]|
      ensures IsOperator(r.scopes[j][k]) || r.scopes[j][k].kind == OPEN_PARENTHESIS.kind
    {
      if j < n {
        assert r.scopes[j] == r.scopes[..n][j] == c.scopes[..n][j];
      } else {
        assert r.scopes[j][k] == top[k];
      }
    }
    forall k | 0 <= k < |r.functions| ensures IsFunction(r.functions[k]) {
      if k < |c.functions| - 1 {
        assert r.functions[k] == r.functions[..|c.functions| - 1][k];
      }
      assert r.functions[k].kind == c.functions[k].kind;
    }
  }

  lemma PopBindingLeaves(c: Converter, p: int)
    requires |c.scopes| > 0 && Consistent(c) && p >= 1
    ensures var r := PopBinding(c, p);
      StateLeaves(r) == StateLeaves(c) && Consistent(r)
  {
    var top := Top(c);
    var m := PopHeight(top, p);
    PopHeightPops(top, p);
    var j := |c.scopes| - 1;
    forall k | m <= k < |top| ensures IsOperator(top[k]) {
      assert c.scopes[j][k] == top[k];
    }
    PopToLeaves(c, m);
  }

  lemma DrainToOpenLeaves(c: Converter)
    requires |c.scopes| > 0 && Consistent(c)
    ensures var r := DrainToOpen(c);
      StateLeaves(r) == StateLeaves(c) && Consistent(r)
  {
    var top := Top(c);
    var m := OpenHeight(top);
    OpenHeightPops(top);
    var j := |c.scopes| - 1;
    forall k | m <= k < |top| ensures IsOperator(top[k]) {
      assert c.scopes[j][k] == top[k];
    }
    PopToLeaves(c, m);
  }

  lemma PushKeepsScopesOk(c: Converter, t: Token)
    requires |c.scopes| > 0 && ScopesOk(c)
    requires IsOperator(t) || t.kind == OPEN_PARENTHESIS.kind
    ensures var r := WithTop(c, Top(c) + [t]);
      ScopesOk(r) && StateLeaves(r) == StateLeaves(c)
  {
  }

  /** Closing a function moves its leaves nowhere: it becomes the last
      token of the enclosing sink. */
  lemma CloseFunctionLeaves(c: Converter)
    requires |c.functions| > 0 ==> IsFunction(c.functions[|c.functions| - 1])
    ensures StateLeaves(CloseFunction(c)) == StateLeaves(c)
  {
    if |c.functions| > 0 {
      var n := |c.functions| - 1;
      var f := c.functions[n];
      var d := c.(functions := c.functions[..n]);
      assert CloseFunction(c) == Emit(d, f);
      EmitLeaves(d, f);
      assert !Structural(f);
      LeavesOne(f);
      var a, b, e := Leaves(c.postfix), OpenLeaves(d.functions), FunctionLeaves(f);
      assert OpenLeaves(c.functions) == b + e;
      assert (a + b) + e == a + (b + e);
    }
  }

  /** The converter invariant: scopes hold operators and markers, and every
      open function is a function token. */
  predicate Consistent(c: Converter) {
    ScopesOk(c) && forall k :: 0 <= k < |c.functions| ==> IsFunction(c.functions[k])
  }

  lemma EmitConsistent(c: Converter, t: Token)
    requires Consistent(c)
    ensures Consistent(Emit(c, t)) && StateLeaves(Emit(c, t)) == StateLeaves(c) + Leaves([t])
  {
    EmitLeaves(c, t);
    var r := Emit(c, t);
    forall k | 0 <= k < |r.functions| ensures IsFunction(r.functions[k]) {
      assert r.functions[k].kind == c.functions[k].kind;
    }
  }

  lemma ApplyCoefficientConsistent(c: Converter)
    requires Consistent(c) && ApplyCoefficient(c).Ok?
    ensures var d := ApplyCoefficient(c).value;
      Consistent(d) && |d.scopes| == |c.scopes| && StateLeaves(d) == StateLeaves(c)
  {
    if c.hasCoefficient {
      PushKeepsScopesOk(c, MULTIPLICATION);
    }
  }

  /** An operand, with its separator if any, adds its own leaf. */
  lemma OperandLeaves(c: Converter, t: Token, coefficient: bool, separated: bool)
    requires Consistent(c)
    ensures var d := Emit(c.(hasCoefficient := c.hasCoefficient || coefficient), t);
      var r := if separated then Emit(d, SPACE) else d;
      Consistent(r) && StateLeaves(r) == StateLeaves(c) + Leaves([t])
  {
    var d := Emit(c.(hasCoefficient := c.hasCoefficient || coefficient), t);
    EmitConsistent(c.(hasCoefficient := c.hasCoefficient || coefficient), t);
    EmitConsistent(d, SPACE);
    LeavesOne(SPACE);
  }

  /** NEGATIVE ONE and a separator add the leaves NEGATIVE ONE. */
  lemma NegativeOneLeaves(c: Converter)
    requires Consistent(c)
    ensures var d := Emit(Emit(Emit(c, NEGATIVE), ONE), SPACE);
      Consistent(d) && |d.scopes| == |c.scopes| && StateLeaves(d) == StateLeaves(c) + [NEGATIVE, ONE]
  {
    PlainLeaf(NEGATIVE);
    PlainLeaf(ONE);
    LeavesOne(SPACE);
    var d1 := Emit(c, NEGATIVE);
    var d2 := Emit(d1, ONE);
    var d3 := Emit(d2, SPACE);
    EmitConsistent(c, NEGATIVE);
    EmitConsistent(d1, ONE);
    EmitConsistent(d2, SPACE);
    assert StateLeaves(d3) == StateLeaves(d2);
    assert StateLeaves(d2) == StateLeaves(d1) + [ONE];
    assert StateLeaves(d1) == StateLeaves(c) + [NEGATIVE];
    AppendAssociates(StateLeaves(c), [NEGATIVE], [ONE]);
  }

  /** A token without arguments that is not structural is its own leaf. */
  lemma PlainLeaf(t: Token)
    requires t.subtokens == [] && !Structural(t)
    ensures Leaves([t]) == [t]
  {
    LeavesOne(t);
    assert Leaves(t.subtokens) == [];
  }

  /** A binary operator only moves operators. */
  lemma BinaryLeaves(c: Converter, t: Token)
    requires Consistent(c) && |c.scopes| > 0 && IsOperator(t)
    ensures var d := PopBinding(c, Precedence(t));
      var r := WithTop(d, Top(d) + [t]);
      Consistent(r) && StateLeaves(r) == StateLeaves(c)
  {
    var d := PopBinding(c, Precedence(t));
    PopBindingLeaves(c, Precedence(t));
    PushKeepsScopesOk(d, t);
  }

  /** A function opens: its leaf comes first, its arguments follow. */
  lemma OpenFunctionLeaves(c: Converter, t: Token)
    requires Consistent(c) && IsFunction(t)
    ensures var r := c.(functions := c.functions + [t]);
      Consistent(r) && StateLeaves(r) == StateLeaves(c) + Leaves([t])
  {
    var r := c.(functions := c.functions + [t]);
    LeavesOne(t);
    assert r.functions[..|r.functions| - 1] == c.functions;
    assert OpenLeaves(r.functions) == OpenLeaves(c.functions) + FunctionLeaves(t);
  }

  /** CLOSE_PARENTHESIS only moves operators and drops a marker. */
  lemma CloseLeaves(c: Converter)
    requires Consistent(c) && |c.scopes| > 0
    ensures var d := DrainToOpen(c);
      var r := if |Top(d)| == 0 then d else WithTop(d, Top(d)[..|Top(d)| - 1]);
      Consistent(r) && StateLeaves(r) == StateLeaves(c)
  {
    var d := DrainToOpen(c);
    DrainToOpenLeaves(c);
    if |Top(d)| != 0 {
      var e := WithTop(d, Top(d)[..|Top(d)| - 1]);
      forall j, k | 0 <= j < |e.scopes| && 0 <= k < |e.scopes[j]|
        ensures IsOperator(e.scopes[j][k]) || e.scopes[j][k].kind == OPEN_PARENTHESIS.kind
      {
        if j == |e.scopes| - 1 {
          assert e.scopes[j][k] == d.scopes[j][k];
        } else {
          assert e.scopes[j] == d.scopes[j];
        }
      }
    }
  }

  /** FUNCTION_CLOSE moves operators into the function, which then goes to
      the enclosing sink. */
  lemma FunctionCloseLeaves(c: Converter)
    requires Consistent(c) && |c.scopes| > 0
    ensures var e := CloseFunction(DrainToOpen(c));
      var r := e.(scopes := e.scopes[..|e.scopes| - 1]);
      Consistent(r) && StateLeaves(r) == StateLeaves(c)
  {
    var d := DrainToOpen(c);
    DrainToOpenLeaves(c);
    var e := CloseFunction(d);
    CloseFunctionLeaves(d);
    CloseFunctionConsistent(d);
    DropScopeConsistent(e);
  }

  lemma CloseFunctionConsistent(c: Converter)
    requires Consistent(c)
    ensures Consistent(CloseFunction(c))
  {
    var e := CloseFunction(c);
    forall k | 0 <= k < |e.functions| ensures IsFunction(e.functions[k]) {
      assert e.functions[k].kind == c.functions[k].kind;
    }
  }

  lemma DropScopeConsistent(c: Converter)
    requires Consistent(c) && |c.scopes| > 0
    ensures Consistent(c.(scopes := c.scopes[..|c.scopes| - 1]))
  {
    var r := c.(scopes := c.scopes[..|c.scopes| - 1]);
    forall j, k | 0 <= j < |r.scopes| && 0 <= k < |r.scopes[j]|
      ensures IsOperator(r.scopes[j][k]) || r.scopes[j][k].kind == OPEN_PARENTHESIS.kind
    {
      assert r.scopes[j] == c.scopes[j];
    }
  }

  /** Tokens read with a pending coefficient. */
  lemma OpeningLeaves(c: Converter, t: Token)
    requires Consistent(c) && ApplyCoefficient(c).Ok?
    requires IsFunction(t) || IsConstant(t) || IsVariable(t) || t.kind == OPEN_PARENTHESIS.kind
    ensures var d := ApplyCoefficient(c).value;
      var r := if IsFunction(t) then Ok(d.(functions := d.functions + [t]))
               else if t.kind == OPEN_PARENTHESIS.kind then PushOperator(d, OPEN_PARENTHESIS)
               else Ok(Emit(d, t));
      r.Ok? ==> Consistent(r.value) && StateLeaves(r.value) == StateLeaves(c) + Leaves([t])
  {
    ApplyCoefficientConsistent(c);
    var d := ApplyCoefficient(c).value;
    LeavesOne(t);
    if IsFunction(t) {
      OpenFunctionLeaves(d, t);
    } else if t.kind == OPEN_PARENTHESIS.kind {
      if |d.scopes| > 0 {
        PushKeepsScopesOk(d, OPEN_PARENTHESIS);
      }
    } else {
      EmitConsistent(d, t);
    }
  }

  /** Every step that succeeds keeps the invariant and adds exactly the
      token's contribution. */
  lemma StepLeaves(c: Converter, infix: seq<Token>, i: nat, r: Converter)
    requires i < |infix| && Consistent(c) && Step(c, infix, i) == Ok(r)
    ensures Consistent(r) && StateLeaves(r) == StateLeaves(c) + Contribution(infix, i)
  {
    var t := infix[i];
    if t.kind == SPACE.kind {
      SpaceStepLeaves(c, infix, i, r);
    } else if IsOperand(t) {
      OperandStepLeaves(c, infix, i, r);
    } else if IsOperator(t) {
      OperatorStepLeaves(c, infix, i, r);
    } else if IsFunction(t) || IsConstant(t) || IsVariable(t) || t.kind == OPEN_PARENTHESIS.kind {
      OpeningStepLeaves(c, infix, i, r);
    } else if t.kind == DECIMAL.kind {
      DecimalStepLeaves(c, infix, i, r);
    } else if t.kind == CLOSE_PARENTHESIS.kind {
      CloseStepLeaves(c, infix, i, r);
    } else if t.kind == FUNCTION_OPEN.kind {
      FunctionOpenStepLeaves(c, infix, i, r);
    } else if t.kind == FUNCTION_CLOSE.kind {
      FunctionCloseStepLeaves(c, infix, i, r);
    } else {
      assert false;
    }
  }

  lemma SpaceStepLeaves(c: Converter, infix: seq<Token>, i: nat, r: Converter)
    requires i < |infix| && infix[i].kind == SPACE.kind
    requires Consistent(c) && Step(c, infix, i) == Ok(r)
    ensures Consistent(r) && StateLeaves(r) == StateLeaves(c) + Contribution(infix, i)
  {
    SpaceSkipped(c, infix, i);
    LeavesOne(infix[i]);
  }

  lemma OperandStepLeaves(c: Converter, infix: seq<Token>, i: nat, r: Converter)
    requires i < |infix| && IsOperand(infix[i])
    requires Consistent(c) && Step(c, infix, i) == Ok(r)
    ensures Consistent(r) && StateLeaves(r) == StateLeaves(c) + Contribution(infix, i)
  {
    UnfoldOperand(c, infix, i);
    OperandLeaves(c, infix[i], i + 1 < |infix| && StartsFactor(infix[i + 1]),
                  i + 1 < |infix| && !IsOperand(infix[i + 1]) && infix[i + 1].kind != DECIMAL.kind);
  }

  lemma OperatorStepLeaves(c: Converter, infix: seq<Token>, i: nat, r: Converter)
    requires i < |infix| && IsOperator(infix[i])
    requires Consistent(c) && Step(c, infix, i) == Ok(r)
    ensures Consistent(r) && StateLeaves(r) == StateLeaves(c) + Contribution(infix, i)
  {
    var t := infix[i];
    if t.kind == SUBTRACTION.kind && IsOperand(infix[i + 1]) {
      UnfoldSign(c, infix, i);
      PlainLeaf(NEGATIVE);
      EmitConsistent(c, NEGATIVE);
    } else if t.kind == SUBTRACTION.kind && StartsFactor(infix[i + 1]) {
      UnfoldNegatedFactor(c, infix, i);
      NegativeOneLeaves(c);
      var d := Emit(Emit(Emit(c, NEGATIVE), ONE), SPACE);
      PushKeepsScopesOk(d, MULTIPLICATION);
    } else {
      LeavesOne(t);
      UnfoldBinary(c, infix, i);
      BinaryLeaves(c, t);
    }
  }

  lemma OpeningStepLeaves(c: Converter, infix: seq<Token>, i: nat, r: Converter)
    requires i < |infix|
    requires IsFunction(infix[i]) || IsConstant(infix[i]) || IsVariable(infix[i])
             || infix[i].kind == OPEN_PARENTHESIS.kind
    requires Consistent(c) && Step(c, infix, i) == Ok(r)
    ensures Consistent(r) && StateLeaves(r) == StateLeaves(c) + Contribution(infix, i)
  {
    UnfoldOpening(c, infix, i);
    OpeningLeaves(c, infix[i]);
  }

  lemma DecimalStepLeaves(c: Converter, infix: seq<Token>, i: nat, r: Converter)
    requires i < |infix| && infix[i].kind == DECIMAL.kind
    requires Consistent(c) && Step(c, infix, i) == Ok(r)
    ensures Consistent(r) && StateLeaves(r) == StateLeaves(c) + Contribution(infix, i)
  {
    EmitConsistent(c, infix[i]);
  }

  lemma CloseStepLeaves(c: Converter, infix: seq<Token>, i: nat, r: Converter)
    requires i < |infix| && infix[i].kind == CLOSE_PARENTHESIS.kind
    requires Consistent(c) && Step(c, infix, i) == Ok(r)
    ensures Consistent(r) && StateLeaves(r) == StateLeaves(c) + Contribution(infix, i)
  {
    var t := infix[i];
    assert Contribution(infix, i) == Leaves([t]);
    LeavesOne(t);
    assert |c.scopes| > 0;
    UnfoldClose(c, infix, i);
    CloseLeaves(c);
  }

  lemma FunctionOpenStepLeaves(c: Converter, infix: seq<Token>, i: nat, r: Converter)
    requires i < |infix| && infix[i].kind == FUNCTION_OPEN.kind
    requires Consistent(c) && Step(c, infix, i) == Ok(r)
    ensures Consistent(r) && StateLeaves(r) == StateLeaves(c) + Contribution(infix, i)
  {
    LeavesOne(infix[i]);
    FunctionOpenStep(c, infix, i);
  }

  lemma FunctionCloseStepLeaves(c: Converter, infix: seq<Token>, i: nat, r: Converter)
    requires i < |infix| && infix[i].kind == FUNCTION_CLOSE.kind
    requires Consistent(c) && Step(c, infix, i) == Ok(r)
    ensures Consistent(r) && StateLeaves(r) == StateLeaves(c) + Contribution(infix, i)
  {
    var t := infix[i];
    assert Contribution(infix, i) == Leaves([t]);
    LeavesOne(t);
    assert |c.scopes| > 0;
    UnfoldFunctionClose(c, infix, i);
    FunctionCloseLeaves(c);
  }

  /** The conversion loop adds the expected leaves of the rest of the input. */
  lemma {:induction false} ConvertLeaves(c: Converter, infix: seq<Token>, i: nat, r: Converter)
    requires Consistent(c) && Convert(c, infix, i) == Ok(r)
    ensures Consistent(r) && StateLeaves(r) == StateLeaves(c) + Expected(infix, i)
    decreases |infix| - i
  {
    if i < |infix| {
      var d := ConvertStep(c, infix, i);
      ConvertLeaves(d, infix, i + 1, r);
    } else {
      assert Convert(c, infix, i) == Ok(c);
    }
  }

  /** One turn of the conversion loop, seen from the leaves. */
  lemma ConvertStep(c: Converter, infix: seq<Token>, i: nat) returns (d: Converter)
    requires i < |infix| && Consistent(c) && Convert(c, infix, i).Ok?
    ensures Consistent(d) && Convert(c, infix, i) == Convert(d, infix, i + 1)
    ensures StateLeaves(d) + Expected(infix, i + 1) == StateLeaves(c) + Expected(infix, i)
  {
    ConvertUnfold(c, infix, i);
    d := Step(c, infix, i).value;
    StepLeaves(c, infix, i, d);
    var a, b, e := StateLeaves(c), Contribution(infix, i), Expected(infix, i + 1);
    assert StateLeaves(d) == a + b && Expected(infix, i) == b + e;
    AppendAssociates(a, b, e);
  }

  lemma AppendAssociates(a: seq<Token>, b: seq<Token>, e: seq<Token>)
    ensures (a + b) + e == a + (b + e)
  {
  }

  lemma ConvertUnfold(c: Converter, infix: seq<Token>, i: nat)
    requires i < |infix| && Convert(c, infix, i).Ok?
    ensures Step(c, infix, i).Ok? && Convert(c, infix, i) == Convert(Step(c, infix, i).value, infix, i + 1)
    ensures Expected(infix, i) == Contribution(infix, i) + Expected(infix, i + 1)
  {
  }

  /** Closing every open function loses no leaves. */
  lemma {:induction false} CloseAllLeaves(c: Converter)
    requires Consistent(c)
    ensures Leaves(CloseAll(c)) == StateLeaves(c)
    decreases |c.functions|
  {
    if |c.functions| > 0 {
      var d := CloseFunction(c);
      CloseFunctionLeaves(c);
      forall k | 0 <= k < |d.functions| ensures IsFunction(d.functions[k]) {
        assert d.functions[k].kind == c.functions[k].kind;
      }
      CloseAllLeaves(d);
    }
  }

  /** The main property of the conversion: the postfix output, read without
      its operators and separators, is the input's operands, decimal points,
      constants, variables and functions in their original order (each
      function followed by its arguments), with NEGATIVE for a `-` read as a
      sign and NEGATIVE ONE for the factor -1 of a negated factor. */
  lemma InfixToPostfixKeepsOrder(infix: seq<Token>)
    requires InfixToPostfixSpec(infix).Ok?
    ensures Leaves(InfixToPostfixSpec(infix).value) == Expected(infix, 0)
  {
    var c := Convert(INITIAL, infix, 0).value;
    assert Consistent(INITIAL) && StateLeaves(INITIAL) == [];
    ConvertLeaves(INITIAL, infix, 0, c);
    FinishLeaves(c, InfixToPostfixSpec(infix).value);
  }

  /** Draining the base scope after the loop adds no leaves. */
  lemma FinishLeaves(c: Converter, out: seq<Token>)
    requires Consistent(c) && Finish(c) == Ok(out)
    ensures Leaves(out) == StateLeaves(c)
  {
    CloseAllLeaves(c);
    var base := c.scopes[0];
    forall k | 0 <= k < |base| ensures IsOperator(base[k]) {
      assert c.scopes[0][k] == base[k];
    }
    var s := Reversed(base);
    forall k | 0 <= k < |s| ensures IsOperator(s[k]) {
      assert s[k] == base[|base| - 1 - k];
    }
    OperatorsHaveNoLeaves(s);
    LeavesAppend(CloseAll(c), s);
  }
}

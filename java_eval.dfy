/** `buildTree`, `solveRec` and the constructor of src/tree/ExpressionTree.java.

    `buildTree` reads the postfix tokens with a stack of nodes: an operator
    pops its right and then its left child, a function becomes a node over
    the tree of its `partial` list and skips as many of the following tokens
    as that list holds, and anything else is a leaf. `solveRec` evaluates the
    tree with the variable bound to `x`. The constructor parses, fuses the
    token list, fuses the shared argument list once for each function token
    and builds the tree. */
module JavaEval {
  import opened Outcomes
  import opened JavaTypes
  import JavaParse
  import JavaConcat
  import Numeric

  /** A `Node`: its token and its children; `Nil` is a `null` child. */
  datatype JTree = Nil | Node(token: JToken, left: JTree, right: JTree)

  // buildTree

  /** The loop of `buildTree(ts)` from index `i` with the node `stack`
      (top last); the final `pop` returns the top node. */
  function BuiltFrom(ts: seq<JToken>, i: nat, stack: seq<JTree>): (r: Result<JTree, JavaError>)
    decreases ts, |ts| - i
  {
    if i >= |ts| then (if stack == [] then Err(EmptyStack) else Ok(stack[|stack| - 1]))
    else
      var t := ts[i];
      if !IsOperatorType(t.kind) && !IsFunctionType(t.kind) then
        BuiltFrom(ts, i + 1, stack + [Node(t, Nil, Nil)])
      else if IsFunctionType(t.kind) then
        var sub :- Built(t.partial);
        BuiltFrom(ts, i + 1 + |t.partial|, stack + [Node(t, sub, Nil)])
      else if |stack| < 2 then Err(EmptyStack)
      else
        var n := |stack|;
        BuiltFrom(ts, i + 1, stack[..n - 2] + [Node(t, stack[n - 2], stack[n - 1])])
  }

  /** What `buildTree(ts)` returns or throws. */
  function Built(ts: seq<JToken>): Result<JTree, JavaError>
    decreases ts, |ts| + 1
  {
    BuiltFrom(ts, 0, [])
  }

  /** `buildTree`: the node stack is a sequence, top last. */
  method BuildTree(ts: seq<JToken>) returns (r: Result<JTree, JavaError>)
    ensures r == Built(ts)
    decreases ts
  {
    var stack: seq<JTree> := [];
    var i: nat := 0;
    while i < |ts|
      invariant BuiltFrom(ts, i, stack) == Built(ts)
      decreases |ts| - i
    {
      var t := ts[i];
      if !IsOperatorType(t.kind) && !IsFunctionType(t.kind) {
        stack := stack + [Node(t, Nil, Nil)];
      } else if IsFunctionType(t.kind) {
        assert t in ts;
        var sub := BuildTree(t.partial);
        if sub.Err? {
          return Err(sub.error);
        }
        stack := stack + [Node(t, sub.value, Nil)];
        i := i + |t.partial|;
      } else {
        // pop the right child, then the left one
        var n := |stack|;
        if n == 0 {
          return Err(EmptyStack);
        }
        var right := stack[n - 1];
        if n == 1 {
          return Err(EmptyStack);
        }
        var left := stack[n - 2];
        stack := stack[..n - 2] + [Node(t, left, right)];
      }
      i := i + 1;
    }
    if stack == [] {
      return Err(EmptyStack);
    }
    r := Ok(stack[|stack| - 1]);
  }

  /** The tokens of a tree in postfix order: left subtree, right subtree, node. */
  function Postorder(t: JTree): seq<JToken> {
    match t
      case Nil => []
      case Node(tok, l, r) => Postorder(l) + Postorder(r) + [tok]
  }

  /** The tokens of a node stack, bottom first. */
  function Flat(stack: seq<JTree>): seq<JToken> {
    if stack == [] then [] else Flat(stack[..|stack| - 1]) + Postorder(stack[|stack| - 1])
  }

  predicate NoFunctions(ts: seq<JToken>) {
    forall k :: 0 <= k < |ts| ==> !IsFunctionType(ts[k].kind)
  }

  /** Without function tokens, every node stack the loop reaches spells the
      tokens read so far, so the tree returned spells a suffix of the list:
      a left child holds earlier tokens than its right sibling. */
  lemma {:induction false} BuiltFromSpells(ts: seq<JToken>, i: nat, stack: seq<JTree>)
    requires NoFunctions(ts) && i <= |ts| && Flat(stack) == ts[..i]
    ensures var r := BuiltFrom(ts, i, stack);
      r.Ok? ==> |Postorder(r.value)| <= |ts| && ts[|ts| - |Postorder(r.value)|..] == Postorder(r.value)
    decreases |ts| - i
  {
    var n := |stack|;
    if i == |ts| {
      if n > 0 {
        assert ts == ts[..i];
        SuffixOf(Flat(stack[..n - 1]), Postorder(stack[n - 1]), ts);
      }
    } else {
      var t := ts[i];
      assert ts[..i + 1] == ts[..i] + [t];
      if !IsOperatorType(t.kind) {
        FlatPushLeaf(stack, t);
        BuiltFromSpells(ts, i + 1, stack + [Node(t, Nil, Nil)]);
      } else if n >= 2 {
        FlatCombine(stack, t);
        BuiltFromSpells(ts, i + 1, stack[..n - 2] + [Node(t, stack[n - 2], stack[n - 1])]);
      }
    }
  }

  /** Pushing a leaf adds its token to the end of the stack's tokens. */
  lemma FlatPushLeaf(stack: seq<JTree>, t: JToken)
    ensures Flat(stack + [Node(t, Nil, Nil)]) == Flat(stack) + [t]
  {
    var st := stack + [Node(t, Nil, Nil)];
    assert st[..|st| - 1] == stack;
    assert Postorder(Node(t, Nil, Nil)) == [t];
  }

  /** Combining the two top trees under an operator adds the operator to the
      end of the stack's tokens. */
  lemma FlatCombine(stack: seq<JTree>, t: JToken)
    requires |stack| >= 2
    ensures var n := |stack|;
      Flat(stack[..n - 2] + [Node(t, stack[n - 2], stack[n - 1])]) == Flat(stack) + [t]
  {
    var n := |stack|;
    var base, l, r := stack[..n - 2], stack[n - 2], stack[n - 1];
    var st := base + [Node(t, l, r)];
    assert st[..|st| - 1] == base;
    assert stack[..n - 1][..n - 2] == base;
    AppendRegroups(Flat(base), Postorder(l), Postorder(r), [t]);
  }

  /** Concatenation regroups freely. */
  lemma AppendRegroups(a: seq<JToken>, b: seq<JToken>, c: seq<JToken>, d: seq<JToken>)
    ensures a + (b + c + d) == a + b + c + d
  {
  }

  lemma SuffixOf(a: seq<JToken>, b: seq<JToken>, ts: seq<JToken>)
    requires a + b == ts
    ensures |b| <= |ts| && ts[|ts| - |b|..] == b
  {
  }

  /** `buildTree` on a function-free list: the tree it returns spells the
      end of the list in postfix order. */
  lemma BuiltSpells(ts: seq<JToken>)
    requires NoFunctions(ts)
    ensures Built(ts).Ok? ==>
      (|Postorder(Built(ts).value)| <= |ts| && ts[|ts| - |Postorder(Built(ts).value)|..] == Postorder(Built(ts).value))
  {
    BuiltFromSpells(ts, 0, []);
  }

  /** The loop from `i` on reads only the tokens from `i` on. */
  lemma {:induction false} BuiltFromReadsRest(ts: seq<JToken>, us: seq<JToken>, i: nat, stack: seq<JTree>)
    requires |ts| == |us| && (i < |ts| ==> ts[i..] == us[i..])
    ensures BuiltFrom(ts, i, stack) == BuiltFrom(us, i, stack)
    decreases |ts| - i
  {
    if i < |ts| {
      assert ts[i] == ts[i..][0] == us[i];
      var t := ts[i];
      var j := if IsFunctionType(t.kind) then i + 1 + |t.partial| else i + 1;
      if j < |ts| {
        assert ts[j..] == ts[i..][j - i..];
        assert us[j..] == us[i..][j - i..];
      }
      if !IsOperatorType(t.kind) && !IsFunctionType(t.kind) {
        BuiltFromReadsRest(ts, us, i + 1, stack + [Node(t, Nil, Nil)]);
      } else if IsFunctionType(t.kind) {
        if Built(t.partial).Ok? {
          BuiltFromReadsRest(ts, us, j, stack + [Node(t, Built(t.partial).value, Nil)]);
        }
      } else if |stack| >= 2 {
        var n := |stack|;
        BuiltFromReadsRest(ts, us, i + 1, stack[..n - 2] + [Node(t, stack[n - 2], stack[n - 1])]);
      }
    }
  }

  /** A function token is built from its own `partial` list, and the
      `partial.size()` tokens after it are skipped unread, whatever they are. */
  lemma FunctionSkipsItsArgument(ts: seq<JToken>, us: seq<JToken>, i: nat, stack: seq<JTree>)
    requires i < |ts| == |us| && IsFunctionType(ts[i].kind) && us[i] == ts[i]
    requires var e := i + 1 + |ts[i].partial|; e < |ts| ==> ts[e..] == us[e..]
    ensures BuiltFrom(ts, i, stack) == BuiltFrom(us, i, stack)
    ensures Built(ts[i].partial).Err? ==> BuiltFrom(ts, i, stack) == Err(Built(ts[i].partial).error)
  {
    var t := ts[i];
    if Built(t.partial).Ok? {
      BuiltFromReadsRest(ts, us, i + 1 + |t.partial|, stack + [Node(t, Built(t.partial).value, Nil)]);
    }
  }

  // solveRec

  /** `evaluateMap` on an operator: the four operations on reals and the
      host's `Math.pow`; `None` is a result that is not a real (a zero
      divisor gives an infinity or NaN), and it propagates. */
  function Apply2(lib: Numeric.MathLib, k: JType, a: Option<real>, b: Option<real>): (r: Option<real>)
    requires IsOperatorType(k)
    ensures r.Some? ==> a.Some? && b.Some?
  {
    if a.None? || b.None? then None
    else match k
      case Addition => Some(a.value + b.value)
      case Subtraction => Some(a.value - b.value)
      case Multiplication => Some(a.value * b.value)
      case Division => if b.value == 0.0 then None else Some(a.value / b.value)
      case Exp => Some(lib.pow(a.value, b.value))
  }

  /** The host primitive `evaluateMap` calls for a function type; `TAN` is
      mapped to `Math.sin` there. */
  function PrimOf(k: JType): (r: Numeric.Prim)
    requires IsFunctionType(k)
    ensures r != Numeric.Tan && r != Numeric.Abs
  {
    match k
      case Sin => Numeric.Sin
      case Cos => Numeric.Cos
      case Tan => Numeric.Sin
      case Asin => Numeric.Asin
      case Acos => Numeric.Acos
      case Atan => Numeric.Atan
      case Sinh => Numeric.Sinh
      case Cosh => Numeric.Cosh
      case Tanh => Numeric.Tanh
      case Sqrt => Numeric.Sqrt
      case Cbrt => Numeric.Cbrt
      case Log => Numeric.Log10
      case Ln => Numeric.Log
  }

  /** `solveRec(node, x)`: an operand's value, an operator on its children
      (left first), a function on its left child, `x` for the variable; any
      other token throws, and so does a `null` node or value. */
  function Solved(lib: Numeric.MathLib, node: JTree, x: real): (r: Result<Option<real>, JavaError>)
    ensures r.Ok? ==> node.Node?
    ensures node.Node? && node.left == Nil && (IsOperatorType(node.token.kind) || IsFunctionType(node.token.kind)) ==> r == Err(NullDereference)
  {
    match node
      case Nil => Err(NullDereference)
      case Node(t, l, r) =>
        if IsOperandType(t.kind) then (if t.value.None? then Err(NullDereference) else Ok(t.value))
        else if IsOperatorType(t.kind) then
          var a :- Solved(lib, l, x);
          var b :- Solved(lib, r, x);
          Ok(Apply2(lib, t.kind, a, b))
        else if IsFunctionType(t.kind) then
          var a :- Solved(lib, l, x);
          Ok(if a.None? then None else Some(lib.prim(PrimOf(t.kind), a.value)))
        else if t.kind == Variable then Ok(Some(x))
        else Err(UnknownOperation)
  }

  /** A tangent node evaluates as a sine node would. */
  lemma TanIsSine(lib: Numeric.MathLib, t: JToken, l: JTree, r: JTree, x: real)
    requires t.kind == Tan
    ensures Solved(lib, Node(t, l, r), x) == Solved(lib, Node(t.(kind := Sin), l, r), x)
  {
  }

  /** `PI` and `E` carry values but are not operands: their leaves throw. */
  lemma ConstantsThrow(lib: Numeric.MathLib, t: JToken, l: JTree, r: JTree, x: real)
    requires t.kind == Pi || t.kind == E
    ensures Solved(lib, Node(t, l, r), x) == Err(UnknownOperation)
  {
  }

  /** A function node reads only its left child; an operator reads its left
      child first, so the left child's exception is the one thrown. */
  lemma SolveOrder(lib: Numeric.MathLib, t: JToken, l: JTree, r: JTree, r': JTree, x: real)
    ensures IsFunctionType(t.kind) ==> Solved(lib, Node(t, l, r), x) == Solved(lib, Node(t, l, r'), x)
    ensures IsOperatorType(t.kind) && Solved(lib, l, x).Err? ==>
      Solved(lib, Node(t, l, r), x) == Err(Solved(lib, l, x).error)
  {
  }

  // The reference: postfix evaluation with a stack of values

  /** A token of a function-free postfix list that evaluates: an operand
      with a value, the variable, or an operator. */
  predicate Plain(t: JToken) {
    (IsOperandType(t.kind) && t.value.Some?) || t.kind == Variable || IsOperatorType(t.kind)
  }

  /** Postfix evaluation of `ts[i..]` with the value stack `vals` (top last),
      without building a tree. */
  function PostfixFrom(lib: Numeric.MathLib, ts: seq<JToken>, i: nat, vals: seq<Option<real>>, x: real): Result<Option<real>, JavaError>
    requires forall k :: 0 <= k < |ts| ==> Plain(ts[k])
    decreases |ts| - i
  {
    if i >= |ts| then (if vals == [] then Err(EmptyStack) else Ok(vals[|vals| - 1]))
    else
      var t := ts[i];
      if IsOperatorType(t.kind) then
        if |vals| < 2 then Err(EmptyStack)
        else
          var n := |vals|;
          PostfixFrom(lib, ts, i + 1, vals[..n - 2] + [Apply2(lib, t.kind, vals[n - 2], vals[n - 1])], x)
      else if t.kind == Variable then PostfixFrom(lib, ts, i + 1, vals + [Some(x)], x)
      else PostfixFrom(lib, ts, i + 1, vals + [t.value], x)
  }

  /** The node stack and the value stack agree entry by entry. */
  predicate Agree(lib: Numeric.MathLib, stack: seq<JTree>, vals: seq<Option<real>>, x: real) {
    |stack| == |vals| && forall k :: 0 <= k < |stack| ==> Solved(lib, stack[k], x) == Ok(vals[k])
  }

  lemma {:induction false} BuiltAgrees(lib: Numeric.MathLib, ts: seq<JToken>, i: nat, stack: seq<JTree>, vals: seq<Option<real>>, x: real)
    requires forall k :: 0 <= k < |ts| ==> Plain(ts[k])
    requires Agree(lib, stack, vals, x)
    ensures BuiltFrom(ts, i, stack).Err? <==> PostfixFrom(lib, ts, i, vals, x).Err?
    ensures BuiltFrom(ts, i, stack).Err? ==> BuiltFrom(ts, i, stack).error == PostfixFrom(lib, ts, i, vals, x).error
    ensures BuiltFrom(ts, i, stack).Ok? ==>
      Solved(lib, BuiltFrom(ts, i, stack).value, x) == PostfixFrom(lib, ts, i, vals, x)
    decreases |ts| - i
  {
    if i < |ts| {
      var t := ts[i];
      var n := |stack|;
      if IsOperatorType(t.kind) {
        if n >= 2 {
          var node := Node(t, stack[n - 2], stack[n - 1]);
          var v := Apply2(lib, t.kind, vals[n - 2], vals[n - 1]);
          assert Solved(lib, node, x) == Ok(v);
          AgreePush(lib, stack[..n - 2], vals[..n - 2], node, v, x);
          BuiltAgrees(lib, ts, i + 1, stack[..n - 2] + [node], vals[..n - 2] + [v], x);
        }
      } else {
        var node := Node(t, Nil, Nil);
        var v := if t.kind == Variable then Some(x) else t.value;
        assert Solved(lib, node, x) == Ok(v);
        AgreePush(lib, stack, vals, node, v, x);
        BuiltAgrees(lib, ts, i + 1, stack + [node], vals + [v], x);
      }
    }
  }

  lemma AgreePush(lib: Numeric.MathLib, stack: seq<JTree>, vals: seq<Option<real>>, node: JTree, v: Option<real>, x: real)
    requires |stack| <= |vals| && forall k :: 0 <= k < |stack| ==> Solved(lib, stack[k], x) == Ok(vals[k])
    requires |stack| == |vals| && Solved(lib, node, x) == Ok(v)
    ensures Agree(lib, stack + [node], vals + [v], x)
  {
  }

  /** On a function-free list of operands, variables and operators, the
      tree `buildTree` makes evaluates to what evaluating the postfix list
      directly gives, and both throw `EmptyStack` on the same lists. */
  lemma BuiltEvaluatesPostfix(lib: Numeric.MathLib, ts: seq<JToken>, x: real)
    requires forall k :: 0 <= k < |ts| ==> Plain(ts[k])
    ensures Built(ts).Err? <==> PostfixFrom(lib, ts, 0, [], x).Err?
    ensures Built(ts).Err? ==> Built(ts) == Err(EmptyStack) && PostfixFrom(lib, ts, 0, [], x) == Err(EmptyStack)
    ensures Built(ts).Ok? ==> Solved(lib, Built(ts).value, x) == PostfixFrom(lib, ts, 0, [], x)
  {
    BuiltAgrees(lib, ts, 0, [], [], x);
    PostfixErrors(lib, ts, 0, [], x);
  }

  /** The only exception of the postfix evaluation is an empty stack. */
  lemma {:induction false} PostfixErrors(lib: Numeric.MathLib, ts: seq<JToken>, i: nat, vals: seq<Option<real>>, x: real)
    requires forall k :: 0 <= k < |ts| ==> Plain(ts[k])
    ensures PostfixFrom(lib, ts, i, vals, x).Err? ==> PostfixFrom(lib, ts, i, vals, x) == Err(EmptyStack)
    decreases |ts| - i
  {
    if i < |ts| {
      var t := ts[i];
      var n := |vals|;
      if IsOperatorType(t.kind) {
        if n >= 2 {
          PostfixErrors(lib, ts, i + 1, vals[..n - 2] + [Apply2(lib, t.kind, vals[n - 2], vals[n - 1])], x);
        }
      } else if t.kind == Variable {
        PostfixErrors(lib, ts, i + 1, vals + [Some(x)], x);
      } else {
        PostfixErrors(lib, ts, i + 1, vals + [t.value], x);
      }
    }
  }

  // The constructor

  /** The `partial` list the function tokens share: that of the first
      function token; empty when there is none. */
  function SharedPartial(ts: seq<JToken>): seq<JToken> {
    if ts == [] then []
    else if IsFunctionType(ts[0].kind) then ts[0].partial
    else SharedPartial(ts[1..])
  }

  /** The function tokens in `ts[i..]`. */
  function FunctionCount(ts: seq<JToken>, i: nat): nat
    decreases |ts| - i
  {
    if i >= |ts| then 0
    else (if IsFunctionType(ts[i].kind) then 1 else 0) + FunctionCount(ts, i + 1)
  }

  /** The constructor's loop from index `i`: `concatenateExpression(t.partial)`
      for each function token `t`, on the one list they all hold. */
  function Passes(ts: seq<JToken>, i: nat, shared: seq<JToken>): Result<seq<JToken>, JavaError>
    decreases |ts| - i
  {
    if i >= |ts| then Ok(shared)
    else if IsFunctionType(ts[i].kind) then
      var next :- JavaConcat.Concatenated(shared);
      Passes(ts, i + 1, next)
    else Passes(ts, i + 1, shared)
  }

  /** `n` passes of `concatenateExpression` over one list, stopping at the
      first that throws. */
  function Repeated(shared: seq<JToken>, n: nat): Result<seq<JToken>, JavaError>
    decreases n
  {
    if n == 0 then Ok(shared)
    else
      var next :- JavaConcat.Concatenated(shared);
      Repeated(next, n - 1)
  }

  /** The loop fuses the shared list once per function token. */
  lemma {:induction false} PassesRepeat(ts: seq<JToken>, i: nat, shared: seq<JToken>)
    ensures Passes(ts, i, shared) == Repeated(shared, FunctionCount(ts, i))
    decreases |ts| - i
  {
    if i < |ts| {
      if IsFunctionType(ts[i].kind) {
        var c := JavaConcat.Concatenated(shared);
        if c.Ok? {
          PassesRepeat(ts, i + 1, c.value);
        }
      } else {
        PassesRepeat(ts, i + 1, shared);
      }
    }
  }

  /** What `new ExpressionTree(infix)` builds, or the exception it throws:
      parse, fuse the token list, fuse the shared argument list once per
      function token, and build the tree, in which every function token
      holds the shared list as it was left. */
  function Constructed(infix: string): Result<JTree, JavaError> {
    var parsed :- JavaParse.Parsed(infix);
    var tokens :- JavaConcat.Concatenated(parsed);
    var shared :- Passes(tokens, 0, SharedPartial(tokens));
    Built(JavaParse.Shared(tokens, shared))
  }

  /** The constructor, with the source's loop over the function tokens. */
  method Construct(infix: string) returns (r: Result<JTree, JavaError>)
    ensures r == Constructed(infix)
  {
    var parsed := JavaParse.ParseInfix(infix);
    if parsed.Err? {
      return Err(parsed.error);
    }
    var fused := JavaConcat.ConcatenateExpression(parsed.value);
    if fused.Err? {
      return Err(fused.error);
    }
    var tokens := fused.value;
    var shared := SharedPartial(tokens);
    var i: nat := 0;
    while i < |tokens|
      invariant i <= |tokens|
      invariant Passes(tokens, i, shared) == Passes(tokens, 0, SharedPartial(tokens))
    {
      if IsFunctionType(tokens[i].kind) {
        var next := JavaConcat.ConcatenateExpression(shared);
        if next.Err? {
          return Err(next.error);
        }
        shared := next.value;
      }
      i := i + 1;
    }
    r := BuildTree(JavaParse.Shared(tokens, shared));
  }

  // The shared argument list fused twice

  /** The OPERAND token of the literal `show`. */
  function OperandToken(v: real, show: string): JToken {
    JToken(Operand, Some(v), [], show)
  }

  /** The shared list of "sin(2)+cos(3)" fuses to two operands ... */
  lemma FirstPassFuses()
    ensures JavaConcat.Concatenated([JavaParse.DigitToken('2'), JavaParse.SPACE_TOKEN,
                                     JavaParse.DigitToken('3'), JavaParse.SPACE_TOKEN])
      == Ok([OperandToken(2.0, "2"), OperandToken(3.0, "3")])
  {
    var o2, o3, sp := OperandToken(2.0, "2"), OperandToken(3.0, "3"), JavaParse.SPACE_TOKEN;
    FuseTwoFirst();
    FuseTwoSecond();
    var ts2 := [o2, sp, o3, sp];
    assert ts2[..1] + ts2[2..] == [o2, o3, sp];
    assert JavaConcat.SpacesRemoved(ts2, 0) == JavaConcat.SpacesRemoved([o2, o3, sp], 2);
    assert [o2, o3, sp][..2] + [o2, o3, sp][3..] == [o2, o3];
    assert JavaConcat.SpacesRemoved([o2, o3, sp], 2) == JavaConcat.SpacesRemoved([o2, o3], 3);
  }

  lemma FuseTwoFirst()
    ensures var sp := JavaParse.SPACE_TOKEN;
      JavaConcat.FuseFrom([JavaParse.DigitToken('2'), sp, JavaParse.DigitToken('3'), sp], 0, "")
      == JavaConcat.FuseFrom([OperandToken(2.0, "2"), sp, JavaParse.DigitToken('3'), sp], 1, "")
  {
    var d2, d3, sp := JavaParse.DigitToken('2'), JavaParse.DigitToken('3'), JavaParse.SPACE_TOKEN;
    var o2 := OperandToken(2.0, "2");
    var ts0, ts1 := [d2, sp, d3, sp], [o2, sp, d3, sp];
    assert Numeric.ParseDouble("2") == Some(2.0);
    assert JavaConcat.Literal("2") == Ok(o2);
    assert ts0[..0] + [o2] + ts0[1..] == ts1;
    assert "" + d2.show == "2";
    assert JavaConcat.FuseTail(ts0, 0, "2") == JavaConcat.FuseFrom(ts1, 1, "");
  }

  lemma FuseTwoSecond()
    ensures var sp := JavaParse.SPACE_TOKEN;
      JavaConcat.FuseFrom([OperandToken(2.0, "2"), sp, JavaParse.DigitToken('3'), sp], 1, "")
      == Ok([OperandToken(2.0, "2"), sp, OperandToken(3.0, "3"), sp])
  {
    var d3, sp := JavaParse.DigitToken('3'), JavaParse.SPACE_TOKEN;
    var o2, o3 := OperandToken(2.0, "2"), OperandToken(3.0, "3");
    var ts1, ts2 := [o2, sp, d3, sp], [o2, sp, o3, sp];
    assert Numeric.ParseDouble("3") == Some(3.0);
    assert JavaConcat.Literal("3") == Ok(o3);
    assert ts1[..2] + [o3] + ts1[3..] == ts2;
    assert "" + d3.show == "3";
    assert JavaConcat.FuseTail(ts1, 2, "3") == JavaConcat.FuseFrom(ts2, 3, "");
    assert JavaConcat.FuseFrom(ts2, 3, "") == Ok(ts2);
  }

  /** ... and a second pass over it reads them as one run that reaches the
      end of the list, and throws. */
  lemma SecondPassThrows()
    ensures JavaConcat.Concatenated([OperandToken(2.0, "2"), OperandToken(3.0, "3")]) == Err(IndexOutOfBounds)
  {
  }
}

/** The expression tree of the JavaScript calculator (calc/expression-tree.js):
    `buildTree` turns a postfix stream into a tree with a stack of nodes,
    `assignVariables` writes bound values into the variable nodes, and
    `solveRec` evaluates the tree recursively.

    Numbers are `Option<real>`: `None` is a JavaScript number that is not
    real (NaN or an infinity), which flows through arithmetic without being
    thrown. Thrown errors are `Err`. */
module ExpressionTree {
  import opened Outcomes
  import opened Tokens
  import Numeric

  /** A tree node. `Nil` is the `null` child of a leaf (and the right child of
      a function node); `Missing` is the `undefined` that `pop` yields on an
      empty stack. */
  datatype Tree = Nil | Missing | Node(token: Token, left: Tree, right: Tree)

  /** What `solveRec` and `assignVariables` throw: a TypeError on a `null` or
      `undefined` node, an unbound variable, a node of no evaluable kind, and a
      TypeError when a token's `math` is not a function. */
  datatype EvalError = NoNode | UnassignedVariable(name: string) | UnknownOperation | NotCallable

  /** A variable binding `{ name: value }`. */
  datatype Binding = Binding(name: string, value: real)

  // Building

  /** `pop` on the node stack: its top and the rest, or `undefined` when empty. */
  function Pop(st: seq<Tree>): (Tree, seq<Tree>)
  {
    if st == [] then (Missing, []) else (st[|st| - 1], st[..|st| - 1])
  }

  /** The node a non-operator token pushes: a leaf, or for a function a node
      whose left child is the tree of its argument. */
  function NodeFor(t: Token): Tree
    decreases t, 0
  {
    if IsFunction(t) then Node(t, TreeOf(t.subtokens), Nil) else Node(t, Nil, Nil)
  }

  /** An operator pops its right operand, then its left one, and pushes
      their node. */
  function Combine(st: seq<Tree>, t: Token): seq<Tree> {
    var right := Pop(st);
    var left := Pop(right.1);
    left.1 + [Node(t, left.0, right.0)]
  }

  /** The node stack after the first `n` tokens of `ts`. */
  function Stack(ts: seq<Token>, n: nat): seq<Tree>
    requires n <= |ts|
    decreases ts, n
  {
    if n == 0 then []
    else if IsOperator(ts[n - 1]) then Combine(Stack(ts, n - 1), ts[n - 1])
    else Stack(ts, n - 1) + [NodeFor(ts[n - 1])]
  }

  /** The tree `buildTree` returns: the top of the final stack. */
  function TreeOf(ts: seq<Token>): Tree
    decreases ts, |ts| + 1
  {
    Pop(Stack(ts, |ts|)).0
  }

  method PopNode(stack: seq<Tree>) returns (top: Tree, rest: seq<Tree>)
    ensures (top, rest) == Pop(stack)
  {
    if stack == [] {
      top, rest := Missing, [];
    } else {
      top, rest := stack[|stack| - 1], stack[..|stack| - 1];
    }
  }

  /** `buildTree`: one pass over the postfix stream with a stack of nodes. */
  method BuildTree(postfix: seq<Token>) returns (root: Tree)
    ensures root == TreeOf(postfix)
    decreases postfix
  {
    var stack: seq<Tree> := [];
    var i: nat := 0;
    while i < |postfix|
      invariant i <= |postfix| && stack == Stack(postfix, i)
    {
      var curToken := postfix[i];
      if !IsOperator(curToken) && !IsFunction(curToken) {
        stack := stack + [Node(curToken, Nil, Nil)];
      } else if IsFunction(curToken) {
        var sub := BuildTree(curToken.subtokens);
        stack := stack + [Node(curToken, sub, Nil)];
      } else {
        var right, left;
        right, stack := PopNode(stack);
        left, stack := PopNode(stack);
        stack := stack + [Node(curToken, left, right)];
      }
      i := i + 1;
    }
    root, stack := PopNode(stack);
  }

  // What building preserves

  /** The stack height after the first `n` tokens, counted by arity alone:
      an operator takes two nodes and gives one, every other token gives one. */
  function Height(ts: seq<Token>, n: nat): int
    requires n <= |ts|
  {
    if n == 0 then 0
    else if IsOperator(ts[n - 1]) then Height(ts, n - 1) - 1
    else Height(ts, n - 1) + 1
  }

  /** Well-formed postfix at the top level: no operator finds fewer than two
      nodes, and exactly one node is left at the end. */
  predicate Balanced(ts: seq<Token>) {
    (forall n :: 0 <= n < |ts| && IsOperator(ts[n]) ==> Height(ts, n) >= 2)
    && Height(ts, |ts|) == 1
  }

  /** Well-formed postfix at every depth. */
  predicate DeepBalanced(ts: seq<Token>)
    decreases ts
  {
    Balanced(ts) && forall k :: 0 <= k < |ts| && IsFunction(ts[k]) ==> DeepBalanced(ts[k].subtokens)
  }

  /** The tokens a tree was built from, in postfix order; a function node
      stands for its own token, which holds its argument. */
  function Postorder(tree: Tree): seq<Token> {
    match tree
    case Nil => []
    case Missing => []
    case Node(t, l, r) => if IsFunction(t) then [t] else Postorder(l) + Postorder(r) + [t]
  }

  /** The postfix order of a stack of trees, bottom first. */
  function Flat(st: seq<Tree>): seq<Token> {
    if st == [] then [] else Flat(st[..|st| - 1]) + Postorder(st[|st| - 1])
  }

  lemma FlatPush(st: seq<Tree>, tree: Tree)
    ensures Flat(st + [tree]) == Flat(st) + Postorder(tree)
  {
    assert (st + [tree])[..|st|] == st;
  }

  /** Without underflow, the stack holds `Height` nodes, none missing, whose
      postfix orders spell the tokens read so far. */
  lemma {:induction false} StackSpells(ts: seq<Token>, n: nat)
    requires n <= |ts|
    requires forall m :: 0 <= m < n && IsOperator(ts[m]) ==> Height(ts, m) >= 2
    ensures var st := Stack(ts, n);
      |st| == Height(ts, n) && Flat(st) == ts[..n] && AllNodes(st)
  {
    if n > 0 {
      StackSpells(ts, n - 1);
      var t := ts[n - 1];
      assert ts[..n] == ts[..n - 1] + [t];
      if IsOperator(t) {
        CombineSpells(Stack(ts, n - 1), t);
      } else {
        PushSpells(Stack(ts, n - 1), t);
      }
    }
  }

  predicate AllNodes(st: seq<Tree>) {
    forall k :: 0 <= k < |st| ==> st[k].Node?
  }

  lemma PushSpells(st: seq<Tree>, t: Token)
    requires !IsOperator(t) && AllNodes(st)
    ensures Flat(st + [NodeFor(t)]) == Flat(st) + [t] && AllNodes(st + [NodeFor(t)])
  {
    var x := NodeFor(t);
    NodeForSpells(t);
    FlatPush(st, x);
    AllNodesPush(st, x);
  }

  lemma NodeForSpells(t: Token)
    ensures NodeFor(t).Node? && Postorder(NodeFor(t)) == [t]
  {
    if !IsFunction(t) {
      assert Postorder(Node(t, Nil, Nil)) == [] + [] + [t];
    }
  }

  lemma AllNodesPush(st: seq<Tree>, x: Tree)
    requires AllNodes(st) && x.Node?
    ensures AllNodes(st + [x])
  {
  }

  lemma CombineSpells(st: seq<Tree>, t: Token)
    requires IsOperator(t) && |st| >= 2 && AllNodes(st)
    ensures var c := Combine(st, t); |c| == |st| - 1 && Flat(c) == Flat(st) + [t] && AllNodes(c)
  {
    var rest := st[..|st| - 2];
    var l, r := st[|st| - 2], st[|st| - 1];
    assert st[..|st| - 1] == rest + [l] && st == rest + [l] + [r];
    FlatPush(rest, l);
    FlatPush(rest + [l], r);
    FlatPush(rest, Node(t, l, r));
    assert Combine(st, t) == rest + [Node(t, l, r)];
  }

  /** Round trip: the tree built from well-formed postfix gives back that
      postfix, so the left child of an operator holds the earlier operand. */
  lemma TreeSpellsPostfix(ts: seq<Token>)
    requires Balanced(ts)
    ensures TreeOf(ts).Node? && Postorder(TreeOf(ts)) == ts
  {
    StackSpells(ts, |ts|);
    var st := Stack(ts, |ts|);
    assert st == [st[0]] && st[..0] == [];
    assert ts[..|ts|] == ts;
  }

  /** The nodes of a tree, counting those under function nodes. */
  function NodeCount(tree: Tree): nat {
    match tree
    case Nil => 0
    case Missing => 0
    case Node(_, l, r) => 1 + NodeCount(l) + NodeCount(r)
  }

  /** The tokens of a stream, counting those in function arguments. */
  function TokenCount(ts: seq<Token>, n: nat): nat
    requires n <= |ts|
    decreases ts, n
  {
    if n == 0 then 0
    else
      var t := ts[n - 1];
      var inner := if IsFunction(t) then TokenCount(t.subtokens, |t.subtokens|) else 0;
      TokenCount(ts, n - 1) + 1 + inner
  }

  /** The nodes on a stack. */
  function StackCount(st: seq<Tree>): nat {
    if st == [] then 0 else StackCount(st[..|st| - 1]) + NodeCount(st[|st| - 1])
  }

  lemma StackCountPush(st: seq<Tree>, tree: Tree)
    ensures StackCount(st + [tree]) == StackCount(st) + NodeCount(tree)
  {
    assert (st + [tree])[..|st|] == st;
  }

  /** Every token, at every depth, makes exactly one node of a tree built from
      well-formed postfix. */
  lemma {:induction false} TreeCountsTokens(ts: seq<Token>)
    requires DeepBalanced(ts)
    ensures NodeCount(TreeOf(ts)) == TokenCount(ts, |ts|)
    decreases ts, |ts| + 1
  {
    StackCounts(ts, |ts|);
    StackSpells(ts, |ts|);
    var st := Stack(ts, |ts|);
    assert st == [st[0]] && st[..0] == [];
  }

  /** Building never loses a node: an empty pop yields `undefined`, which
      holds none. */
  lemma {:induction false} StackCounts(ts: seq<Token>, n: nat)
    requires n <= |ts|
    requires forall k :: 0 <= k < |ts| && IsFunction(ts[k]) ==> DeepBalanced(ts[k].subtokens)
    ensures StackCount(Stack(ts, n)) == TokenCount(ts, n)
    decreases ts, n
  {
    if n > 0 {
      StackCounts(ts, n - 1);
      var t := ts[n - 1];
      if IsOperator(t) {
        CombineCounts(Stack(ts, n - 1), t);
      } else {
        if IsFunction(t) {
          TreeCountsTokens(t.subtokens);
        }
        StackCountPush(Stack(ts, n - 1), NodeFor(t));
      }
    }
  }

  lemma CombineCounts(st: seq<Tree>, t: Token)
    ensures StackCount(Combine(st, t)) == StackCount(st) + 1
  {
    var right := Pop(st);
    var left := Pop(right.1);
    if st != [] {
      assert st == right.1 + [right.0];
      StackCountPush(right.1, right.0);
    }
    if right.1 != [] {
      assert right.1 == left.1 + [left.0];
      StackCountPush(left.1, left.0);
    }
    StackCountPush(left.1, Node(t, left.0, right.0));
  }

  /** An operator with too few operands gets `undefined` children. */
  lemma UnderflowLeavesMissing()
    ensures TreeOf([ADDITION]) == Node(ADDITION, Missing, Missing)
    ensures TreeOf([ONE, ADDITION]) == Node(ADDITION, Missing, Node(ONE, Nil, Nil))
  {
    assert Stack([ADDITION], 0) == [];
    var ts := [ONE, ADDITION];
    assert Stack(ts, 1) == [Node(ONE, Nil, Nil)];
  }

  // Variables

  /** The value a variable named `name` ends up with: the last binding of that
      name, or `current` when there is none among the first `n`. */
  function Bound(bs: seq<Binding>, name: string, current: Option<real>, n: nat): Option<real>
    requires n <= |bs|
  {
    if n == 0 then current
    else if bs[n - 1].name == name then Some(bs[n - 1].value)
    else Bound(bs, name, current, n - 1)
  }

  /** The binding loop of `assignVariables` for one variable node: every
      binding with the node's name overwrites its value in turn. */
  method BoundValue(bs: seq<Binding>, name: string, current: Option<real>) returns (v: Option<real>)
    ensures v == Bound(bs, name, current, |bs|)
  {
    v := current;
    var i: nat := 0;
    while i < |bs|
      invariant i <= |bs| && v == Bound(bs, name, current, i)
    {
      if name == bs[i].name {
        v := Some(bs[i].value);
      }
      i := i + 1;
    }
  }

  /** A name with no binding keeps its value. */
  lemma {:induction false} BoundUnbound(bs: seq<Binding>, name: string, current: Option<real>, n: nat)
    requires n <= |bs| && forall k :: 0 <= k < n ==> bs[k].name != name
    ensures Bound(bs, name, current, n) == current
  {
    if n > 0 {
      BoundUnbound(bs, name, current, n - 1);
    }
  }

  /** The last binding of a name wins. */
  lemma {:induction false} BoundLast(bs: seq<Binding>, name: string, current: Option<real>, n: nat, k: nat)
    requires k < n <= |bs| && bs[k].name == name
    requires forall m :: k < m < n ==> bs[m].name != name
    ensures Bound(bs, name, current, n) == Some(bs[k].value)
  {
    if k < n - 1 {
      BoundLast(bs, name, current, n - 1, k);
    }
  }

  /** The tree after `assignVariables(node, variables)`; `None` bindings are
      the source's `undefined`. A `null` child is skipped; an `undefined` one
      is visited and throws. */
  function Assigned(node: Tree, vars: Option<seq<Binding>>): Result<Tree, EvalError>
  {
    if vars.None? then Ok(node)
    else match node
      case Nil => Err(NoNode)
      case Missing => Err(NoNode)
      case Node(t, l, r) =>
        var t' := if IsVariable(t) then t.(value := Bound(vars.value, t.show, t.value, |vars.value|)) else t;
        var l' :- if l == Nil then Ok(Nil) else Assigned(l, vars);
        var r' :- if r == Nil then Ok(Nil) else Assigned(r, vars);
        Ok(Node(t', l', r'))
  }

  /** `assignVariables`, recursing left then right. */
  method AssignVariables(node: Tree, vars: Option<seq<Binding>>) returns (r: Result<Tree, EvalError>)
    ensures r == Assigned(node, vars)
  {
    if vars.None? {
      return Ok(node);
    }
    if !node.Node? {
      return Err(NoNode);
    }
    var t := node.token;
    if IsVariable(t) {
      var v := BoundValue(vars.value, t.show, t.value);
      t := t.(value := v);
    }
    var l: Tree := Nil;
    if node.left != Nil {
      var rl := AssignVariables(node.left, vars);
      if rl.Err? {
        return Err(rl.error);
      }
      l := rl.value;
    }
    var rt: Tree := Nil;
    if node.right != Nil {
      var rr := AssignVariables(node.right, vars);
      if rr.Err? {
        return Err(rr.error);
      }
      rt := rr.value;
    }
    r := Ok(Node(t, l, rt));
  }

  /** A tree with an `undefined` node reachable through its `undefined` or
      non-`null` links. */
  predicate HasMissing(tree: Tree) {
    match tree
    case Nil => true
    case Missing => true
    case Node(_, l, r) => (l != Nil && HasMissing(l)) || (r != Nil && HasMissing(r))
  }

  /** Two trees of the same shape whose tokens agree except, on variable
      nodes, in their value. */
  predicate SameButValues(a: Tree, b: Tree) {
    match a
    case Nil => b == Nil
    case Missing => b == Missing
    case Node(t, l, r) =>
      b.Node? && (if IsVariable(t) then b.token.(value := t.value) == t else b.token == t)
      && SameButValues(l, b.left) && SameButValues(r, b.right)
  }

  /** With bindings, assigning fails exactly on a tree with an `undefined`
      node; otherwise it changes only the values of variable nodes, and each
      variable node gets the last binding of its name. */
  lemma {:induction false} AssignedTouchesOnlyVariables(node: Tree, bs: seq<Binding>)
    ensures Assigned(node, Some(bs)).Err? <==> HasMissing(node)
    ensures Assigned(node, Some(bs)).Ok? ==> SameButValues(node, Assigned(node, Some(bs)).value)
    ensures Assigned(node, Some(bs)).Ok? && IsVariable(node.token)
      ==> Assigned(node, Some(bs)).value.token.value == Bound(bs, node.token.show, node.token.value, |bs|)
  {
    if node.Node? {
      if node.left != Nil {
        AssignedTouchesOnlyVariables(node.left, bs);
      }
      if node.right != Nil {
        AssignedTouchesOnlyVariables(node.right, bs);
      }
    }
  }

  /** Without bindings nothing changes; assigning twice is assigning once. */
  lemma {:induction false} AssignedIdempotent(node: Tree, vars: Option<seq<Binding>>)
    ensures Assigned(node, None) == Ok(node)
    ensures Assigned(node, vars).Ok? ==> Assigned(Assigned(node, vars).value, vars) == Assigned(node, vars)
  {
    if vars.Some? && node.Node? && Assigned(node, vars).Ok? {
      var bs := vars.value;
      var t := node.token;
      if IsVariable(t) {
        var v := Bound(bs, t.show, t.value, |bs|);
        BoundAgain(bs, t.show, t.value, v, |bs|);
      }
      if node.left != Nil {
        AssignedIdempotent(node.left, vars);
        AssignedTouchesOnlyVariables(node.left, bs);
        SameButValuesKeepsNil(node.left, Assigned(node.left, vars).value);
      }
      if node.right != Nil {
        AssignedIdempotent(node.right, vars);
        AssignedTouchesOnlyVariables(node.right, bs);
        SameButValuesKeepsNil(node.right, Assigned(node.right, vars).value);
      }
    }
  }

  lemma {:induction false} BoundAgain(bs: seq<Binding>, name: string, current: Option<real>, v: Option<real>, n: nat)
    requires n <= |bs| && v == Bound(bs, name, current, n)
    ensures Bound(bs, name, v, n) == v
  {
    if n > 0 && bs[n - 1].name != name {
      BoundAgain(bs, name, current, v, n - 1);
    }
  }

  lemma SameButValuesKeepsNil(a: Tree, b: Tree)
    requires SameButValues(a, b)
    ensures (a == Nil) == (b == Nil)
  {
  }

  // Evaluation

  /** The host's primitive behind a one-argument `math` entry; `tanh` calls
      `Math.cosh`, as its entry in calc/function.js does. */
  function PrimOf(m: MathFn): (r: Option<Numeric.Prim>)
    ensures r.None? <==> m in {NoMath, Add, Subtract, Multiply, Divide, Pow}
    ensures r != Some(Numeric.Tanh)
  {
    match m
    case Sin => Some(Numeric.Sin)
    case Cos => Some(Numeric.Cos)
    case Tan => Some(Numeric.Tan)
    case Asin => Some(Numeric.Asin)
    case Acos => Some(Numeric.Acos)
    case Atan => Some(Numeric.Atan)
    case Sinh => Some(Numeric.Sinh)
    case Cosh => Some(Numeric.Cosh)
    case Tanh => Some(Numeric.Cosh)
    case Sqrt => Some(Numeric.Sqrt)
    case Cbrt => Some(Numeric.Cbrt)
    case Log => Some(Numeric.Log10)
    case Ln => Some(Numeric.Log)
    case Abs => Some(Numeric.Abs)
    case _ => None
  }

  /** `token.math(a, b)`: the four operators on reals (a zero divisor gives an
      infinity or NaN), `Math.pow`, and a one-argument primitive that ignores
      `b`. A non-real operand gives a non-real result here; the host can turn
      an infinity back into a real (`1 / Infinity` is 0), which the model does
      not follow. */
  function Binary(lib: Numeric.MathLib, m: MathFn, a: Option<real>, b: Option<real>): (r: Result<Option<real>, EvalError>)
    ensures r.Err? <==> m == NoMath
    ensures r.Ok? && r.value.Some? ==> a.Some? && (PrimOf(m).None? ==> b.Some?)
    ensures m == Divide && b == Some(0.0) ==> r == Ok(None)
  {
    if m == NoMath then Err(NotCallable)
    else if PrimOf(m).Some? then Ok(if a.None? then None else Some(lib.prim(PrimOf(m).value, a.value)))
    else if a.None? || b.None? then Ok(None)
    else if m == Add then Ok(Some(a.value + b.value))
    else if m == Subtract then Ok(Some(a.value - b.value))
    else if m == Multiply then Ok(Some(a.value * b.value))
    else if m == Divide then Ok(if b.value == 0.0 then None else Some(a.value / b.value))
    else Ok(Some(lib.pow(a.value, b.value)))
  }

  /** `token.math(a)`: a one-argument primitive, or a two-argument entry whose
      missing second operand makes the result NaN. */
  function Unary(lib: Numeric.MathLib, m: MathFn, a: Option<real>): (r: Result<Option<real>, EvalError>)
    ensures r.Err? <==> m == NoMath
    ensures r.Ok? && r.value.Some? <==> PrimOf(m).Some? && a.Some?
  {
    if m == NoMath then Err(NotCallable)
    else if PrimOf(m).Some? then Ok(if a.None? then None else Some(lib.prim(PrimOf(m).value, a.value)))
    else Ok(None)
  }

  /** A one-argument entry called with two arguments ignores the second,
      and gives what it gives when called with one. */
  lemma OneArgumentEntry(lib: Numeric.MathLib, m: MathFn, a: Option<real>, b: Option<real>)
    requires PrimOf(m).Some?
    ensures Binary(lib, m, a, b) == Unary(lib, m, a)
  {
  }

  /** `solveRec(node, x)`; `x` is `None` when it is `undefined`. */
  function SolveRec(lib: Numeric.MathLib, node: Tree, x: Option<real>): (r: Result<Option<real>, EvalError>)
    ensures r.Ok? ==> node.Node?
    ensures node.Node? && node.left == Missing && (IsOperator(node.token) || IsFunction(node.token)) ==> r == Err(NoNode)
  {
    match node
    case Nil => Err(NoNode)
    case Missing => Err(NoNode)
    case Node(t, l, r) =>
      if IsOperand(t) || IsConstant(t) then Ok(t.value)
      else if IsVariable(t) then
        if t.show == "x" then (if x.None? then Err(UnassignedVariable("x")) else Ok(x))
        else if t.value.None? then Err(UnassignedVariable(t.show))
        else Ok(t.value)
      else if IsOperator(t) then
        var a :- SolveRec(lib, l, x);
        var b :- SolveRec(lib, r, x);
        Binary(lib, t.math, a, b)
      else if IsFunction(t) then
        var a :- SolveRec(lib, l, x);
        Unary(lib, t.math, a)
      else Err(UnknownOperation)
  }

  /** `solve(root, x, variables)`: bind the variables, then evaluate. */
  function Solve(lib: Numeric.MathLib, root: Tree, x: Option<real>, vars: Option<seq<Binding>>): (r: Result<Option<real>, EvalError>)
    ensures vars.None? ==> r == SolveRec(lib, root, x)
  {
    AssignedIdempotent(root, None);
    var bound :- Assigned(root, vars);
    SolveRec(lib, bound, x)
  }

  /** A variable node named `x` anywhere `solveRec` can reach. */
  predicate MentionsX(tree: Tree) {
    match tree
    case Nil => false
    case Missing => false
    case Node(t, l, r) => (IsVariable(t) && t.show == "x") || MentionsX(l) || MentionsX(r)
  }

  /** The value of `x` matters only through the variable nodes named `x`. */
  lemma {:induction false} SolveIgnoresUnusedX(lib: Numeric.MathLib, tree: Tree, x1: Option<real>, x2: Option<real>)
    requires !MentionsX(tree)
    ensures SolveRec(lib, tree, x1) == SolveRec(lib, tree, x2)
  {
    if tree.Node? {
      SolveIgnoresUnusedX(lib, tree.left, x1, x2);
      SolveIgnoresUnusedX(lib, tree.right, x1, x2);
    }
  }

  /** A leaf of any kind that is not an operand, constant or variable (a
      SPACE, DECIMAL or parenthesis left in the stream) cannot be evaluated,
      and neither can anything above it. */
  lemma {:induction false} StrayTokenThrows(lib: Numeric.MathLib, tree: Tree, x: Option<real>)
    requires tree.Node? && !IsOperand(tree.token) && !IsConstant(tree.token)
    requires !IsVariable(tree.token) && !IsOperator(tree.token) && !IsFunction(tree.token)
    ensures SolveRec(lib, tree, x) == Err(UnknownOperation)
    ensures forall t: Token, right: Tree :: IsOperator(t) ==> SolveRec(lib, Node(t, tree, right), x) == Err(UnknownOperation)
  {
  }

  /** Two leaves and an operator build one operator node over the two
      leaves, the earlier one on the left. */
  lemma ThreeTokenTree(a: Token, b: Token, op: Token)
    requires !IsOperator(a) && !IsFunction(a) && !IsOperator(b) && !IsFunction(b) && IsOperator(op)
    ensures TreeOf([a, b, op]) == Node(op, Node(a, Nil, Nil), Node(b, Nil, Nil))
  {
    var ts := [a, b, op];
    assert Stack(ts, 1) == [Node(a, Nil, Nil)];
    assert Stack(ts, 2) == [Node(a, Nil, Nil), Node(b, Nil, Nil)];
  }

  /** Evaluation of `1 2 -` takes the earlier operand as the left one. */
  lemma SolveOrder(lib: Numeric.MathLib)
    ensures SolveRec(lib, TreeOf([ONE, TWO, SUBTRACTION]), None) == Ok(Some(-1.0))
  {
    ThreeTokenTree(ONE, TWO, SUBTRACTION);
    var tree := Node(SUBTRACTION, Node(ONE, Nil, Nil), Node(TWO, Nil, Nil));
    assert SolveRec(lib, tree.left, None) == Ok(Some(1.0));
    assert SolveRec(lib, tree.right, None) == Ok(Some(2.0));
  }

  /** The variable `x` reads the supplied value. */
  lemma SolveX(lib: Numeric.MathLib)
    ensures SolveRec(lib, TreeOf([VARIABLE, TWO, MULTIPLICATION]), Some(3.0)) == Ok(Some(6.0))
  {
    ThreeTokenTree(VARIABLE, TWO, MULTIPLICATION);
    var tree := Node(MULTIPLICATION, Node(VARIABLE, Nil, Nil), Node(TWO, Nil, Nil));
    assert SolveRec(lib, tree.left, Some(3.0)) == Ok(Some(3.0));
    assert SolveRec(lib, tree.right, Some(3.0)) == Ok(Some(2.0));
  }

  /** Without a supplied value, the variable `x` throws. */
  lemma SolveUnboundX(lib: Numeric.MathLib)
    ensures SolveRec(lib, TreeOf([VARIABLE]), None) == Err(UnassignedVariable("x"))
  {
    OneTokenTree(VARIABLE);
    XLeaf(lib, VARIABLE, None);
  }

  /** A single leaf token builds its own leaf. */
  lemma OneTokenTree(t: Token)
    requires !IsOperator(t) && !IsFunction(t)
    ensures TreeOf([t]) == Node(t, Nil, Nil)
  {
    assert Stack([t], 1) == [Node(t, Nil, Nil)];
  }

  /** A leaf for the variable `x` reads the supplied value, or throws. */
  lemma XLeaf(lib: Numeric.MathLib, t: Token, x: Option<real>)
    requires IsVariable(t) && t.show == "x"
    ensures SolveRec(lib, Node(t, Nil, Nil), x) == if x.None? then Err(UnassignedVariable("x")) else Ok(x)
  {
    assert !IsOperand(t) && !IsConstant(t);
  }

  /** Any other variable reads its last binding. */
  lemma SolveBinding(lib: Numeric.MathLib)
    ensures Solve(lib, Node(VARIABLE.(show := "y"), Nil, Nil), None, Some([Binding("y", 2.0), Binding("y", 7.0)]))
      == Ok(Some(7.0))
  {
  }

  // The reference: postfix evaluation with a stack of values

  /** No function token at the top level of a stream. */
  predicate FunctionFree(ts: seq<Token>) {
    forall k :: 0 <= k < |ts| ==> !IsFunction(ts[k])
  }

  /** The value of a leaf, read off its token: an operand's or constant's
      value, `x` or a bound variable, or the error of any other token. */
  function LeafValue(t: Token, x: Option<real>): Result<Option<real>, EvalError> {
    if IsOperand(t) || IsConstant(t) then Ok(t.value)
    else if !IsVariable(t) then Err(UnknownOperation)
    else if t.show == "x" then (if x.None? then Err(UnassignedVariable("x")) else Ok(x))
    else if t.value.None? then Err(UnassignedVariable(t.show))
    else Ok(t.value)
  }

  /** `pop` on a stack of outcomes: an empty stack gives the error of an
      `undefined` node. */
  function PopValue(vs: seq<Result<Option<real>, EvalError>>): (Result<Option<real>, EvalError>, seq<Result<Option<real>, EvalError>>)
  {
    if vs == [] then (Err(NoNode), []) else (vs[|vs| - 1], vs[..|vs| - 1])
  }

  /** An operator over two outcomes: the left error first, then the right. */
  function ApplyValues(lib: Numeric.MathLib, m: MathFn, a: Result<Option<real>, EvalError>, b: Result<Option<real>, EvalError>): Result<Option<real>, EvalError>
  {
    if a.Err? then a else if b.Err? then b else Binary(lib, m, a.value, b.value)
  }

  /** The value stack after the first `n` tokens of a function-free stream,
      evaluated as they are read and without building a tree. */
  function Values(lib: Numeric.MathLib, ts: seq<Token>, n: nat, x: Option<real>): seq<Result<Option<real>, EvalError>>
    requires n <= |ts|
  {
    if n == 0 then []
    else if IsOperator(ts[n - 1]) then CombineValues(lib, Values(lib, ts, n - 1, x), ts[n - 1].math)
    else Values(lib, ts, n - 1, x) + [LeafValue(ts[n - 1], x)]
  }

  /** An operator pops the right value, then the left, and pushes its
      outcome. */
  function CombineValues(lib: Numeric.MathLib, vs: seq<Result<Option<real>, EvalError>>, m: MathFn): seq<Result<Option<real>, EvalError>>
  {
    var right := PopValue(vs);
    var left := PopValue(right.1);
    left.1 + [ApplyValues(lib, m, left.0, right.0)]
  }

  /** The value of the postfix stream: the top of the final value stack. */
  function PostfixValue(lib: Numeric.MathLib, ts: seq<Token>, x: Option<real>): Result<Option<real>, EvalError> {
    PopValue(Values(lib, ts, |ts|, x)).0
  }

  /** A node stack and a value stack agree entry by entry. */
  predicate Agree(lib: Numeric.MathLib, st: seq<Tree>, vs: seq<Result<Option<real>, EvalError>>, x: Option<real>) {
    |st| == |vs| && forall k :: 0 <= k < |st| ==> SolveRec(lib, st[k], x) == vs[k]
  }

  /** Popping agreeing stacks gives agreeing tops and rests; the `undefined`
      of an empty node stack evaluates to the error an empty value stack
      gives. */
  lemma PopAgrees(lib: Numeric.MathLib, st: seq<Tree>, vs: seq<Result<Option<real>, EvalError>>, x: Option<real>)
    requires Agree(lib, st, vs, x)
    ensures SolveRec(lib, Pop(st).0, x) == PopValue(vs).0 && Agree(lib, Pop(st).1, PopValue(vs).1, x)
  {
  }

  lemma AgreePush(lib: Numeric.MathLib, st: seq<Tree>, vs: seq<Result<Option<real>, EvalError>>, tree: Tree, v: Result<Option<real>, EvalError>, x: Option<real>)
    requires Agree(lib, st, vs, x) && SolveRec(lib, tree, x) == v
    ensures Agree(lib, st + [tree], vs + [v], x)
  {
  }

  /** The node stack `buildTree` keeps and the value stack agree after every
      token of a function-free stream, underflow included. */
  lemma {:induction false} StackAgrees(lib: Numeric.MathLib, ts: seq<Token>, n: nat, x: Option<real>)
    requires n <= |ts| && FunctionFree(ts)
    ensures Agree(lib, Stack(ts, n), Values(lib, ts, n, x), x)
  {
    if n > 0 {
      StackAgrees(lib, ts, n - 1, x);
      var t := ts[n - 1];
      var st, vs := Stack(ts, n - 1), Values(lib, ts, n - 1, x);
      if IsOperator(t) {
        CombineAgrees(lib, st, vs, t, x);
      } else {
        LeafAgrees(lib, st, vs, t, x);
      }
    }
  }

  /** An operator keeps the two stacks in step. */
  lemma CombineAgrees(lib: Numeric.MathLib, st: seq<Tree>, vs: seq<Result<Option<real>, EvalError>>, t: Token, x: Option<real>)
    requires Agree(lib, st, vs, x) && IsOperator(t)
    ensures Agree(lib, Combine(st, t), CombineValues(lib, vs, t.math), x)
  {
    var right, rightV := Pop(st), PopValue(vs);
    PopAgrees(lib, st, vs, x);
    var left, leftV := Pop(right.1), PopValue(rightV.1);
    PopAgrees(lib, right.1, rightV.1, x);
    var v := ApplyValues(lib, t.math, leftV.0, rightV.0);
    assert SolveRec(lib, Node(t, left.0, right.0), x) == v;
    AgreePush(lib, left.1, leftV.1, Node(t, left.0, right.0), v, x);
  }

  /** A leaf keeps the two stacks in step. */
  lemma LeafAgrees(lib: Numeric.MathLib, st: seq<Tree>, vs: seq<Result<Option<real>, EvalError>>, t: Token, x: Option<real>)
    requires Agree(lib, st, vs, x) && !IsOperator(t) && !IsFunction(t)
    ensures Agree(lib, st + [NodeFor(t)], vs + [LeafValue(t, x)], x)
  {
    assert SolveRec(lib, Node(t, Nil, Nil), x) == LeafValue(t, x);
    AgreePush(lib, st, vs, Node(t, Nil, Nil), LeafValue(t, x), x);
  }

  /** `solveRec` on the tree `buildTree` makes from a function-free postfix
      stream gives what evaluating the stream on a stack of values gives,
      error for error: an operator that finds too few values is the
      `undefined` child that throws. */
  lemma SolvedEvaluatesPostfix(lib: Numeric.MathLib, ts: seq<Token>, x: Option<real>)
    requires FunctionFree(ts)
    ensures SolveRec(lib, TreeOf(ts), x) == PostfixValue(lib, ts, x)
  {
    StackAgrees(lib, ts, |ts|, x);
    PopAgrees(lib, Stack(ts, |ts|), Values(lib, ts, |ts|, x), x);
  }

  /** On well-formed postfix no value on the stack is the error of an
      `undefined` node. */
  lemma {:induction false} ValuesDefined(lib: Numeric.MathLib, ts: seq<Token>, n: nat, x: Option<real>)
    requires n <= |ts|
    requires forall m :: 0 <= m < n && IsOperator(ts[m]) ==> Height(ts, m) >= 2
    ensures |Values(lib, ts, n, x)| == Height(ts, n) && NoMissing(Values(lib, ts, n, x))
  {
    if n > 0 {
      ValuesDefined(lib, ts, n - 1, x);
      var vs := Values(lib, ts, n - 1, x);
      if IsOperator(ts[n - 1]) {
        assert Height(ts, n - 1) >= 2;
        CombineDefined(lib, vs, ts[n - 1].math);
      } else {
        LeafNotMissing(ts[n - 1], x);
        PushDefined(vs, LeafValue(ts[n - 1], x));
      }
    }
  }

  lemma LeafNotMissing(t: Token, x: Option<real>)
    ensures LeafValue(t, x) != Err(NoNode)
  {
  }

  predicate NoMissing(vs: seq<Result<Option<real>, EvalError>>) {
    forall k :: 0 <= k < |vs| ==> vs[k] != Err(NoNode)
  }

  lemma PushDefined(vs: seq<Result<Option<real>, EvalError>>, v: Result<Option<real>, EvalError>)
    requires NoMissing(vs) && v != Err(NoNode)
    ensures NoMissing(vs + [v])
  {
  }

  /** An operator over two values that are not the error of an `undefined`
      node gives none either. */
  lemma CombineDefined(lib: Numeric.MathLib, vs: seq<Result<Option<real>, EvalError>>, m: MathFn)
    requires |vs| >= 2 && NoMissing(vs)
    ensures |CombineValues(lib, vs, m)| == |vs| - 1 && NoMissing(CombineValues(lib, vs, m))
  {
    var n := |vs|;
    assert PopValue(vs) == (vs[n - 1], vs[..n - 1]);
    assert vs[..n - 1][n - 2] == vs[n - 2] && vs[..n - 1][..n - 2] == vs[..n - 2];
    assert PopValue(vs[..n - 1]) == (vs[n - 2], vs[..n - 2]);
    assert ApplyValues(lib, m, vs[n - 2], vs[n - 1]) != Err(NoNode);
    PushDefined(vs[..n - 2], ApplyValues(lib, m, vs[n - 2], vs[n - 1]));
  }

  /** Well-formed function-free postfix never evaluates to the error of an
      `undefined` node: that error comes only from an operator with too few
      operands. */
  lemma BalancedHasNoMissing(lib: Numeric.MathLib, ts: seq<Token>, x: Option<real>)
    requires FunctionFree(ts) && Balanced(ts)
    ensures SolveRec(lib, TreeOf(ts), x) != Err(NoNode)
  {
    SolvedEvaluatesPostfix(lib, ts, x);
    ValuesDefined(lib, ts, |ts|, x);
  }
}

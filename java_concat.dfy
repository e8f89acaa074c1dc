/** `concatenateExpression` of src/tree/ExpressionTree.java: fuse each run of
    digit, OPERAND and DECIMAL tokens into one OPERAND token, then remove the
    SPACE separators, both in place on the token list.

    The fusing loop removes as many tokens as the fused literal has
    characters and steps its index back by that count less one. On the
    tokens `parseInfix` makes, which show one character each, that is the
    run itself; on a list that was fused before (the shared `partial` of a
    second function) it is not, so the loop is modelled for any shows:
    `FuseFrom` follows it turn by turn, and `Fused` is the run-by-run
    reading it agrees with on one-glyph tokens. */
module JavaConcat {
  import opened Outcomes
  import opened JavaTypes
  import Numeric

  /** The OPERAND token for the glyphs `digits`, or the
      `NumberFormatException` of `Double.parseDouble`. Number tokens only
      ever show digits and decimal points; any other glyph is reported as
      that exception too. */
  function Literal(digits: string): (r: Result<JToken, JavaError>)
    ensures r.Ok? ==> r.value.kind == Operand && r.value.show == digits && r.value.partial == []
    ensures r.Err? ==> r.error == NumberFormat(digits)
  {
    match Numeric.ParseDouble(digits)
      case None => Err(NumberFormat(digits))
      case Some(v) => Ok(JToken(Operand, Some(v), [], digits))
  }

  /** The end of a run: the literal `digits` ends at index `i`, and the
      `digits.length()` tokens that end there are replaced by its OPERAND.
      A removal before index 0 throws, and the literal is parsed once the
      removals are done. */
  function FuseAt(ts: seq<JToken>, i: nat, digits: string): (r: Result<seq<JToken>, JavaError>)
    requires i < |ts|
    ensures r.Ok? ==> |digits| <= i + 1 && |r.value| == |ts| + 1 - |digits|
    ensures r.Ok? ==> r.value[i + 1 - |digits|].kind == Operand && r.value[i + 1 - |digits|].show == digits
    ensures r.Err? ==> r.error == IndexOutOfBounds || r.error == NumberFormat(digits)
  {
    if |digits| > i + 1 then Err(IndexOutOfBounds)
    else
      var lit :- Literal(digits);
      Ok(ts[..i + 1 - |digits|] + [lit] + ts[i + 1..])
  }

  /** The fusing loop from index `i`, with `digits` accumulated so far. */
  function FuseFrom(ts: seq<JToken>, i: nat, digits: string): (r: Result<seq<JToken>, JavaError>)
    requires i <= |ts|
    decreases |ts| - i, 1
  {
    if i == |ts| then Ok(ts)
    else if !IsRunType(ts[i].kind) then FuseFrom(ts, i + 1, digits)
    else
      var d := digits + ts[i].show;
      if i + 1 == |ts| then Err(IndexOutOfBounds)
      else if IsRunType(ts[i + 1].kind) then FuseFrom(ts, i + 1, d)
      else FuseTail(ts, i, d)
  }

  /** The fuse at index `i` and the loop after it. */
  function FuseTail(ts: seq<JToken>, i: nat, d: string): (r: Result<seq<JToken>, JavaError>)
    requires i < |ts|
    decreases |ts| - i, 0
  {
    var fused :- FuseAt(ts, i, d);
    FuseFrom(fused, i + 1 - |d| + 1, "")
  }

  /** The space loop from index `i`: a removal shifts the next token into
      slot `i`, and the loop's increment then passes over it. */
  function SpacesRemoved(ts: seq<JToken>, i: nat): (r: seq<JToken>)
    ensures |r| <= |ts|
    decreases |ts| - i
  {
    if i >= |ts| then ts
    else if ts[i].kind == Space then SpacesRemoved(ts[..i] + ts[i + 1..], i + 1)
    else SpacesRemoved(ts, i + 1)
  }

  /** What `concatenateExpression(tokens)` leaves in `tokens`, or throws. */
  function Concatenated(ts: seq<JToken>): Result<seq<JToken>, JavaError>
  {
    var fused :- FuseFrom(ts, 0, "");
    Ok(SpacesRemoved(fused, 0))
  }

  // The run-by-run reading

  /** The glyphs of `ts[m..e]`, in order. */
  function Glyphs(ts: seq<JToken>, m: nat, e: nat): (g: string)
    requires m <= e <= |ts|
    decreases e - m
  {
    if e == m then "" else Glyphs(ts, m, e - 1) + ts[e - 1].show
  }

  /** `GlyphTokens` from index `m` on, stated token by token. */
  predicate OneGlyphsFrom(ts: seq<JToken>, m: nat)
    requires m <= |ts|
    decreases |ts| - m
  {
    m == |ts| || (OneGlyph(ts[m]) && OneGlyphsFrom(ts, m + 1))
  }

  lemma {:induction false} OneGlyphsFromAll(ts: seq<JToken>, m: nat)
    requires m <= |ts| && GlyphTokens(ts)
    ensures OneGlyphsFrom(ts, m)
    decreases |ts| - m
  {
    if m < |ts| {
      OneGlyphsFromAll(ts, m + 1);
    }
  }

  lemma {:induction false} OneGlyphsLater(ts: seq<JToken>, m: nat, j: nat)
    requires m <= j <= |ts| && OneGlyphsFrom(ts, m)
    ensures OneGlyphsFrom(ts, j) && (j < |ts| ==> OneGlyph(ts[j]))
    decreases j - m
  {
    if m < j {
      OneGlyphsLater(ts, m + 1, j);
    }
  }

  /** On one-glyph tokens a run has as many glyphs as tokens. */
  lemma {:induction false} GlyphsOfRun(ts: seq<JToken>, m: nat, e: nat)
    requires m <= e <= |ts| && OneGlyphsFrom(ts, m) && forall j :: m <= j < e ==> IsRunType(ts[j].kind)
    ensures |Glyphs(ts, m, e)| == e - m
    decreases e - m
  {
    if e > m {
      GlyphsOfRun(ts, m, e - 1);
      OneGlyphsLater(ts, m, e - 1);
    }
  }

  /** Where the run that starts at `j` ends. */
  function RunEnd(ts: seq<JToken>, j: nat): (n: nat)
    requires j <= |ts|
    ensures j <= n <= |ts|
    ensures forall k :: j <= k < n ==> IsRunType(ts[k].kind)
    ensures n < |ts| ==> !IsRunType(ts[n].kind)
    decreases |ts| - j
  {
    if j == |ts| || !IsRunType(ts[j].kind) then j else RunEnd(ts, j + 1)
  }

  lemma {:induction false} RunEndAt(ts: seq<JToken>, j: nat, n: nat)
    requires j <= n <= |ts| && forall k :: j <= k < n ==> IsRunType(ts[k].kind)
    requires n < |ts| ==> !IsRunType(ts[n].kind)
    ensures RunEnd(ts, j) == n
    decreases n - j
  {
    if j < n {
      RunEndAt(ts, j + 1, n);
    }
  }

  /** The fusing pass read run by run from index `m`: a run that another
      token follows becomes one OPERAND, a run that reaches the end of the
      list throws, and every other token stays as it is. */
  function Fused(ts: seq<JToken>, m: nat): (r: Result<seq<JToken>, JavaError>)
    requires m <= |ts|
    decreases |ts| - m
  {
    if m == |ts| then Ok([])
    else if !IsRunType(ts[m].kind) then Prefixed([ts[m]], Fused(ts, m + 1))
    else
      var e := RunEnd(ts, m);
      if e == |ts| then Err(IndexOutOfBounds)
      else
        var lit :- Literal(Glyphs(ts, m, e));
        Prefixed([lit], Fused(ts, e))
  }

  /** `r` with `out` in front of its tokens. */
  function Prefixed(out: seq<JToken>, r: Result<seq<JToken>, JavaError>): (r': Result<seq<JToken>, JavaError>)
    ensures r'.Err? <==> r.Err?
    ensures r.Err? ==> r' == r
    ensures r.Ok? ==> r'.value == out + r.value
  {
    if r.Err? then r else Ok(out + r.value)
  }

  /** `ts[m..]`, built token by token. */
  function Tail(ts: seq<JToken>, m: nat): (r: seq<JToken>)
    requires m <= |ts|
    ensures |r| == |ts| - m
    decreases |ts| - m
  {
    if m == |ts| then [] else [ts[m]] + Tail(ts, m + 1)
  }

  lemma {:induction false} TailAt(ts: seq<JToken>, m: nat, j: nat)
    requires m <= j < |ts|
    ensures Tail(ts, m)[j - m] == ts[j]
    decreases j - m
  {
    if m < j {
      TailAt(ts, m + 1, j);
    }
  }

  lemma {:induction false} TailFrom(ts: seq<JToken>, m: nat, n: nat)
    requires m <= n <= |ts|
    ensures Tail(ts, m)[n - m..] == Tail(ts, n)
    decreases n - m
  {
    if m < n {
      TailFrom(ts, m + 1, n);
      assert Tail(ts, m)[n - m..] == Tail(ts, m + 1)[n - m - 1..];
    }
  }

  lemma TailAll(ts: seq<JToken>)
    ensures Tail(ts, 0) == ts
  {
    forall j | 0 <= j < |ts|
      ensures Tail(ts, 0)[j] == ts[j]
    {
      TailAt(ts, 0, j);
    }
  }

  /** The loop, run on `out + ts[m..]` from the index of `ts[k]` with the
      glyphs of `ts[m..k]` accumulated, reads `ts` run by run. */
  lemma {:induction false} FuseAgrees(out: seq<JToken>, ts: seq<JToken>, m: nat, k: nat)
    requires m <= |ts| && OneGlyphsFrom(ts, m)
    requires m <= k <= |ts| && forall j :: m <= j < k ==> IsRunType(ts[j].kind)
    requires k > m ==> k < |ts| && IsRunType(ts[k].kind)
    ensures FuseFrom(out + Tail(ts, m), |out| + (k - m), Glyphs(ts, m, k)) == Prefixed(out, Fused(ts, m))
    decreases |ts| - m, |ts| - k, 1
  {
    if k == |ts| {
      assert out + Tail(ts, m) == out + [];
    } else if !IsRunType(ts[k].kind) {
      FuseOther(out, ts, m);
    } else if k + 1 == |ts| {
      FuseTrailing(out, ts, m, k);
    } else if IsRunType(ts[k + 1].kind) {
      FuseContinue(out, ts, m, k);
    } else {
      FuseEnd(out, ts, m, k);
    }
  }

  /** A run that reaches the end of the list: `get(i + 1)` throws. */
  lemma FuseTrailing(out: seq<JToken>, ts: seq<JToken>, m: nat, k: nat)
    requires m <= k && k + 1 == |ts| && forall j :: m <= j <= k ==> IsRunType(ts[j].kind)
    ensures FuseFrom(out + Tail(ts, m), |out| + (k - m), Glyphs(ts, m, k)) == Err(IndexOutOfBounds)
    ensures Fused(ts, m) == Err(IndexOutOfBounds)
  {
    TailAt(ts, m, k);
    assert (out + Tail(ts, m))[|out| + (k - m)] == ts[k];
    RunEndAt(ts, m, |ts|);
  }

  /** Inside a run the loop only accumulates the glyph. */
  lemma FuseStep(out: seq<JToken>, ts: seq<JToken>, m: nat, k: nat)
    requires m <= k && k + 1 < |ts| && IsRunType(ts[k].kind) && IsRunType(ts[k + 1].kind)
    ensures FuseFrom(out + Tail(ts, m), |out| + (k - m), Glyphs(ts, m, k))
      == FuseFrom(out + Tail(ts, m), |out| + (k + 1 - m), Glyphs(ts, m, k + 1))
  {
    TailAt(ts, m, k);
    TailAt(ts, m, k + 1);
    assert (out + Tail(ts, m))[|out| + (k - m)] == ts[k];
    assert (out + Tail(ts, m))[|out| + (k - m) + 1] == ts[k + 1];
  }

  /** Inside a run, the loop goes on to the next token of the run. */
  lemma {:induction false} FuseContinue(out: seq<JToken>, ts: seq<JToken>, m: nat, k: nat)
    requires m <= |ts| && OneGlyphsFrom(ts, m)
    requires m <= k && k + 1 < |ts| && forall j :: m <= j <= k + 1 ==> IsRunType(ts[j].kind)
    ensures FuseFrom(out + Tail(ts, m), |out| + (k - m), Glyphs(ts, m, k)) == Prefixed(out, Fused(ts, m))
    decreases |ts| - m, |ts| - k, 0
  {
    FuseStep(out, ts, m, k);
    FuseAgrees(out, ts, m, k + 1);
  }

  /** A token outside every run goes to the output as it is. */
  lemma {:induction false} FuseOther(out: seq<JToken>, ts: seq<JToken>, m: nat)
    requires m < |ts| && OneGlyphsFrom(ts, m) && !IsRunType(ts[m].kind)
    ensures FuseFrom(out + Tail(ts, m), |out|, "") == Prefixed(out, Fused(ts, m))
    decreases |ts| - m, 0, 0
  {
    var xs := out + Tail(ts, m);
    Behind(out, ts, m);
    FuseFromOther(xs, |out|, "");
    FuseAgrees(out + [ts[m]], ts, m + 1, m + 1);
    FusedOther(ts, m);
    PrefixedTwice(out, [ts[m]], Fused(ts, m + 1));
  }

  /** `ts[m]` stands at index `|out|` of `out + ts[m..]`, and moves to the
      output. */
  lemma Behind(out: seq<JToken>, ts: seq<JToken>, m: nat)
    requires m < |ts|
    ensures (out + Tail(ts, m))[|out|] == ts[m]
    ensures out + Tail(ts, m) == (out + [ts[m]]) + Tail(ts, m + 1)
  {
    assert Tail(ts, m) == [ts[m]] + Tail(ts, m + 1);
    assert out + ([ts[m]] + Tail(ts, m + 1)) == (out + [ts[m]]) + Tail(ts, m + 1);
  }

  /** The loop passes over a token outside every run. */
  lemma FuseFromOther(xs: seq<JToken>, i: nat, g: string)
    requires i < |xs| && !IsRunType(xs[i].kind)
    ensures FuseFrom(xs, i, g) == FuseFrom(xs, i + 1, g)
  {
  }

  /** The run-by-run reading keeps a token outside every run. */
  lemma FusedOther(ts: seq<JToken>, m: nat)
    requires m < |ts| && !IsRunType(ts[m].kind)
    ensures Fused(ts, m) == Prefixed([ts[m]], Fused(ts, m + 1))
  {
  }

  /** The loop at the last token of a run that another token follows. */
  lemma FuseFromAtEnd(xs: seq<JToken>, i: nat, g: string)
    requires i + 1 < |xs| && IsRunType(xs[i].kind) && !IsRunType(xs[i + 1].kind)
    ensures FuseFrom(xs, i, g) == FuseTail(xs, i, g + xs[i].show)
  {
  }

  /** The fuse itself, when the literal parses and the removals stay in
      the list. */
  lemma FuseTailSplice(xs: seq<JToken>, i: nat, d: string, lit: JToken)
    requires i < |xs| && |d| <= i + 1 && Literal(d) == Ok(lit)
    ensures FuseTail(xs, i, d) == FuseFrom(xs[..i + 1 - |d|] + [lit] + xs[i + 1..], i + 2 - |d|, "")
  {
  }

  /** The end of a run whose literal parses: the loop goes on after its
      OPERAND. */
  lemma FuseEndSplice(xs: seq<JToken>, i: nat, g: string, lit: JToken, a: nat, ys: seq<JToken>, t: JToken, u: JToken)
    requires i + 1 < |xs| && xs[i] == t && xs[i + 1] == u
    requires IsRunType(t.kind) && !IsRunType(u.kind)
    requires a + |g + t.show| == i + 1 && Literal(g + t.show) == Ok(lit)
    requires ys == xs[..a] + [lit] + xs[i + 1..]
    ensures FuseFrom(xs, i, g) == FuseFrom(ys, a + 1, "")
  {
    FuseFromAtEnd(xs, i, g);
    FuseTailSplice(xs, i, g + xs[i].show, lit);
  }

  /** The end of a run whose literal does not parse. */
  lemma FuseEndFails(xs: seq<JToken>, i: nat, g: string, d: string, t: JToken, u: JToken)
    requires i + 1 < |xs| && xs[i] == t && xs[i + 1] == u
    requires IsRunType(t.kind) && !IsRunType(u.kind)
    requires d == g + t.show && |d| <= i + 1 && Literal(d).Err?
    ensures FuseFrom(xs, i, g) == Err(NumberFormat(d))
  {
    FuseFromAtEnd(xs, i, g);
  }

  /** The run-by-run reading of a run that ends at `e`, before the end. */
  lemma FusedRun(ts: seq<JToken>, m: nat, e: nat)
    requires m < e < |ts| && forall j :: m <= j < e ==> IsRunType(ts[j].kind)
    requires !IsRunType(ts[e].kind)
    ensures Literal(Glyphs(ts, m, e)).Err? ==> Fused(ts, m) == Err(NumberFormat(Glyphs(ts, m, e)))
    ensures Literal(Glyphs(ts, m, e)).Ok? ==>
      Fused(ts, m) == Prefixed([Literal(Glyphs(ts, m, e)).value], Fused(ts, e))
  {
    RunEndAt(ts, m, e);
  }

  /** Splicing the literal over the run `ts[m..k + 1]` behind `out`. */
  lemma SpliceRun(out: seq<JToken>, ts: seq<JToken>, m: nat, k: nat, lit: JToken)
    requires m <= k < |ts|
    ensures var xs := out + Tail(ts, m);
      xs[..|out|] + [lit] + xs[|out| + (k - m) + 1..] == (out + [lit]) + Tail(ts, k + 1)
  {
    var xs := out + Tail(ts, m);
    assert xs[..|out|] == out;
    TailFrom(ts, m, k + 1);
    assert xs[|out| + (k - m) + 1..] == Tail(ts, m)[k + 1 - m..];
  }

  /** Token `j` of the tokens from `m` on, behind `out`. */
  lemma BehindAt(out: seq<JToken>, ts: seq<JToken>, m: nat, j: nat)
    requires m <= j < |ts|
    ensures |out + Tail(ts, m)| == |out| + (|ts| - m)
    ensures (out + Tail(ts, m))[|out| + (j - m)] == ts[j]
  {
    TailAt(ts, m, j);
  }

  /** Two neighbouring tokens of `ts[m..]` behind `out`. */
  lemma BehindPair(out: seq<JToken>, ts: seq<JToken>, m: nat, k: nat)
    requires m <= k && k + 1 < |ts|
    ensures |out + Tail(ts, m)| == |out| + (|ts| - m)
    ensures (out + Tail(ts, m))[|out| + (k - m)] == ts[k]
    ensures (out + Tail(ts, m))[|out| + (k - m) + 1] == ts[k + 1]
  {
    BehindAt(out, ts, m, k);
    BehindAt(out, ts, m, k + 1);
  }

  /** The loop at the end of the run `ts[m..k + 1]` behind `out`, with the
      glyphs `g` of `ts[m..k]` read: when the literal parses, it goes on after
      the literal's OPERAND. */
  lemma FuseRunEndOk(out: seq<JToken>, ts: seq<JToken>, m: nat, k: nat, g: string, lit: JToken)
    requires m <= k && k + 1 < |ts| && IsRunType(ts[k].kind) && !IsRunType(ts[k + 1].kind)
    requires |g + ts[k].show| == k + 1 - m && Literal(g + ts[k].show) == Ok(lit)
    ensures FuseFrom(out + Tail(ts, m), |out| + (k - m), g) == FuseFrom((out + [lit]) + Tail(ts, k + 1), |out| + 1, "")
  {
    var xs, i := out + Tail(ts, m), |out| + (k - m);
    var ys := (out + [lit]) + Tail(ts, k + 1);
    BehindPair(out, ts, m, k);
    SpliceRun(out, ts, m, k, lit);
    assert ys == xs[..|out|] + [lit] + xs[i + 1..];
    assert |out| + |g + ts[k].show| == i + 1;
    FuseEndSplice(xs, i, g, lit, |out|, ys, ts[k], ts[k + 1]);
  }

  /** The last token of a run that another token follows: the run becomes
      one OPERAND. */
  lemma {:induction false} FuseEnd(out: seq<JToken>, ts: seq<JToken>, m: nat, k: nat)
    requires m <= |ts| && OneGlyphsFrom(ts, m)
    requires m <= k && k + 1 < |ts| && forall j :: m <= j <= k ==> IsRunType(ts[j].kind)
    requires !IsRunType(ts[k + 1].kind)
    ensures FuseFrom(out + Tail(ts, m), |out| + (k - m), Glyphs(ts, m, k)) == Prefixed(out, Fused(ts, m))
    decreases |ts| - m, 0, 1
  {
    if Literal(Glyphs(ts, m, k + 1)).Ok? {
      FuseEndOk(out, ts, m, k);
    } else {
      FuseEndErr(out, ts, m, k);
    }
  }

  /** The same, when the run's literal parses: the loop splices in the
      OPERAND and goes on as the run-by-run reading does. */
  lemma {:induction false} FuseEndOk(out: seq<JToken>, ts: seq<JToken>, m: nat, k: nat)
    requires m <= |ts| && OneGlyphsFrom(ts, m)
    requires m <= k && k + 1 < |ts| && forall j :: m <= j <= k ==> IsRunType(ts[j].kind)
    requires !IsRunType(ts[k + 1].kind) && Literal(Glyphs(ts, m, k + 1)).Ok?
    ensures FuseFrom(out + Tail(ts, m), |out| + (k - m), Glyphs(ts, m, k)) == Prefixed(out, Fused(ts, m))
    decreases |ts| - m, 0, 0
  {
    GlyphsOfRun(ts, m, k + 1);
    FusedRun(ts, m, k + 1);
    var g := Glyphs(ts, m, k);
    var lit := Literal(Glyphs(ts, m, k + 1)).value;
    assert Glyphs(ts, m, k + 1) == g + ts[k].show;
    FuseRunEndOk(out, ts, m, k, g, lit);
    OneGlyphsLater(ts, m, k + 1);
    FuseAgrees(out + [lit], ts, k + 1, k + 1);
    PrefixedTwice(out, [lit], Fused(ts, k + 1));
  }

  /** The same, when the run's literal does not parse: the loop throws as the
      run-by-run reading does. */
  lemma FuseEndErr(out: seq<JToken>, ts: seq<JToken>, m: nat, k: nat)
    requires m <= |ts| && OneGlyphsFrom(ts, m)
    requires m <= k && k + 1 < |ts| && forall j :: m <= j <= k ==> IsRunType(ts[j].kind)
    requires !IsRunType(ts[k + 1].kind) && Literal(Glyphs(ts, m, k + 1)).Err?
    ensures FuseFrom(out + Tail(ts, m), |out| + (k - m), Glyphs(ts, m, k)) == Prefixed(out, Fused(ts, m))
  {
    FusedRun(ts, m, k + 1);
    FuseEndThrows(out, ts, m, k);
  }

  /** The loop at the end of a run whose literal does not parse throws
      NumberFormatException on that literal. */
  lemma FuseEndThrows(out: seq<JToken>, ts: seq<JToken>, m: nat, k: nat)
    requires m <= |ts| && OneGlyphsFrom(ts, m)
    requires m <= k && k + 1 < |ts| && forall j :: m <= j <= k ==> IsRunType(ts[j].kind)
    requires !IsRunType(ts[k + 1].kind) && Literal(Glyphs(ts, m, k + 1)).Err?
    ensures FuseFrom(out + Tail(ts, m), |out| + (k - m), Glyphs(ts, m, k)) == Err(NumberFormat(Glyphs(ts, m, k + 1)))
  {
    GlyphsOfRun(ts, m, k + 1);
    var xs, i, g, d := out + Tail(ts, m), |out| + (k - m), Glyphs(ts, m, k), Glyphs(ts, m, k + 1);
    assert d == g + ts[k].show;
    BehindPair(out, ts, m, k);
    FuseEndFails(xs, i, g, d, ts[k], ts[k + 1]);
  }

  lemma PrefixedTwice(a: seq<JToken>, b: seq<JToken>, r: Result<seq<JToken>, JavaError>)
    ensures Prefixed(a + b, r) == Prefixed(a, Prefixed(b, r))
  {
    if r.Ok? {
      assert (a + b) + r.value == a + (b + r.value);
    }
  }

  /** On the tokens `parseInfix` makes, the loop fuses run by run. */
  lemma FuseFromIsFused(ts: seq<JToken>)
    requires GlyphTokens(ts)
    ensures FuseFrom(ts, 0, "") == Fused(ts, 0)
  {
    OneGlyphsFromAll(ts, 0);
    FuseAgrees([], ts, 0, 0);
    TailAll(ts);
    assert [] + Tail(ts, 0) == ts;
    if Fused(ts, 0).Ok? {
      assert [] + Fused(ts, 0).value == Fused(ts, 0).value;
    }
  }

  // What the fusing pass keeps and makes

  /** The tokens of `s` outside every run, in order. */
  function Others(s: seq<JToken>): (r: seq<JToken>)
    ensures |r| <= |s|
    ensures forall p :: 0 <= p < |r| ==> !IsRunType(r[p].kind)
  {
    if s == [] then []
    else if IsRunType(s[0].kind) then Others(s[1..])
    else [s[0]] + Others(s[1..])
  }

  lemma OthersOfRun(ts: seq<JToken>, m: nat, e: nat)
    requires m <= e <= |ts| && forall j :: m <= j < e ==> IsRunType(ts[j].kind)
    ensures Others(ts[m..]) == Others(ts[e..])
    decreases e - m
  {
    if m < e {
      assert ts[m..][1..] == ts[m + 1..];
      OthersOfRun(ts, m + 1, e);
    }
  }

  /** The fusing pass keeps every token outside the runs, in order. */
  lemma {:induction false} FusedKeepsOthers(ts: seq<JToken>, m: nat)
    requires m <= |ts| && Fused(ts, m).Ok?
    ensures Others(Fused(ts, m).value) == Others(ts[m..])
    decreases |ts| - m
  {
    if m < |ts| {
      var o := Fused(ts, m).value;
      assert ts[m..][1..] == ts[m + 1..];
      if !IsRunType(ts[m].kind) {
        FusedKeepsOthers(ts, m + 1);
        assert o[1..] == Fused(ts, m + 1).value;
      } else {
        var e := RunEnd(ts, m);
        FusedKeepsOthers(ts, e);
        assert o[1..] == Fused(ts, e).value;
        OthersOfRun(ts, m + 1, e);
      }
    }
  }

  /** A non-run token at `m` heads the reading from `m`. */
  lemma FusedHead(ts: seq<JToken>, m: nat)
    requires m < |ts| && !IsRunType(ts[m].kind) && Fused(ts, m).Ok?
    ensures |Fused(ts, m).value| > 0 && Fused(ts, m).value[0] == ts[m]
  {
  }

  /** The list the fusing pass makes holds no run of two: every number
      token in it is an OPERAND, and another, non-number token follows it. */
  predicate Condensed(o: seq<JToken>) {
    forall p :: 0 <= p < |o| && IsRunType(o[p].kind) ==>
      o[p].kind == Operand && p + 1 < |o| && !IsRunType(o[p + 1].kind)
  }

  lemma {:induction false} FusedIsCondensed(ts: seq<JToken>, m: nat)
    requires m <= |ts| && Fused(ts, m).Ok?
    ensures Condensed(Fused(ts, m).value)
    decreases |ts| - m
  {
    if m < |ts| {
      var o := Fused(ts, m).value;
      if !IsRunType(ts[m].kind) {
        FusedIsCondensed(ts, m + 1);
        var o' := Fused(ts, m + 1).value;
        assert o == [ts[m]] + o';
        assert forall p :: 1 <= p < |o| ==> o[p] == o'[p - 1];
      } else {
        var e := RunEnd(ts, m);
        FusedIsCondensed(ts, e);
        FusedHead(ts, e);
        var o' := Fused(ts, e).value;
        assert o == [Literal(Glyphs(ts, m, e)).value] + o';
        assert forall p :: 1 <= p < |o| ==> o[p] == o'[p - 1];
      }
    }
  }

  /** A list whose last token is a number token makes the pass throw. */
  lemma {:induction false} TrailingRunThrows(ts: seq<JToken>, m: nat)
    requires m < |ts| && IsRunType(ts[|ts| - 1].kind)
    ensures Fused(ts, m).Err?
    decreases |ts| - m
  {
    if !IsRunType(ts[m].kind) {
      TrailingRunThrows(ts, m + 1);
    } else {
      var e := RunEnd(ts, m);
      if e < |ts| {
        TrailingRunThrows(ts, e);
      }
    }
  }

  /** A list without number tokens passes through unchanged. */
  lemma {:induction false} NoRunsUnchanged(ts: seq<JToken>, i: nat, digits: string)
    requires i <= |ts| && forall j :: 0 <= j < |ts| ==> !IsRunType(ts[j].kind)
    ensures FuseFrom(ts, i, digits) == Ok(ts)
    decreases |ts| - i
  {
    if i < |ts| {
      NoRunsUnchanged(ts, i + 1, digits);
    }
  }

  // What the space pass keeps

  /** The tokens of `s` other than SPACE, in order. */
  function NonSpaces(s: seq<JToken>): (r: seq<JToken>)
    ensures |r| <= |s|
    ensures forall p :: 0 <= p < |r| ==> r[p].kind != Space
  {
    if s == [] then []
    else if s[0].kind == Space then NonSpaces(s[1..])
    else [s[0]] + NonSpaces(s[1..])
  }

  lemma {:induction false} NonSpacesConcat(a: seq<JToken>, b: seq<JToken>)
    ensures NonSpaces(a + b) == NonSpaces(a) + NonSpaces(b)
    decreases |a|
  {
    if a != [] {
      assert (a + b)[0] == a[0];
      assert (a + b)[1..] == a[1..] + b;
      NonSpacesConcat(a[1..], b);
      if a[0].kind != Space {
        assert [a[0]] + (NonSpaces(a[1..]) + NonSpaces(b)) == ([a[0]] + NonSpaces(a[1..])) + NonSpaces(b);
      }
    } else {
      assert a + b == b;
    }
  }

  /** The space pass removes SPACE tokens only, and keeps the order of the
      others. */
  lemma {:induction false} SpacesRemovedKeepsOthers(ts: seq<JToken>, i: nat)
    ensures NonSpaces(SpacesRemoved(ts, i)) == NonSpaces(ts)
    decreases |ts| - i
  {
    if i < |ts| {
      if ts[i].kind == Space {
        SpacesRemovedKeepsOthers(ts[..i] + ts[i + 1..], i + 1);
        assert ts == ts[..i] + [ts[i]] + ts[i + 1..];
        NonSpacesConcat(ts[..i] + [ts[i]], ts[i + 1..]);
        NonSpacesConcat(ts[..i], [ts[i]]);
        NonSpacesConcat(ts[..i], ts[i + 1..]);
      } else {
        SpacesRemovedKeepsOthers(ts, i + 1);
      }
    }
  }

  /** No two SPACE tokens side by side from index `i` on. */
  predicate SpacesApart(ts: seq<JToken>, i: nat) {
    forall j :: i <= j && j + 1 < |ts| ==> !(ts[j].kind == Space && ts[j + 1].kind == Space)
  }

  /** Removing a SPACE at `i` that a non-SPACE follows. */
  lemma SpaceDropped(ts: seq<JToken>, i: nat)
    requires i + 1 < |ts| && SpacesApart(ts, i)
    ensures var ts' := ts[..i] + ts[i + 1..];
      SpacesApart(ts', i + 1) && ts'[..i + 1] == ts[..i] + [ts[i + 1]] && ts'[i + 1..] == ts[i + 2..]
  {
    var ts' := ts[..i] + ts[i + 1..];
    assert forall j :: i + 1 <= j < |ts'| ==> ts'[j] == ts[j + 1];
    assert ts'[..i + 1] == ts[..i] + [ts[i + 1]];
    assert ts'[i + 1..] == ts[i + 2..];
  }

  lemma NonSpacesAfterSpace(ts: seq<JToken>, i: nat)
    requires i + 1 < |ts| && ts[i].kind == Space && ts[i + 1].kind != Space
    ensures NonSpaces(ts[i..]) == [ts[i + 1]] + NonSpaces(ts[i + 2..])
  {
    assert ts[i..][1..] == ts[i + 1..];
    assert ts[i + 1..][1..] == ts[i + 2..];
  }

  lemma NonSpaceKept(ts: seq<JToken>, i: nat)
    requires i < |ts| && ts[i].kind != Space
    ensures ts[..i + 1] + NonSpaces(ts[i + 1..]) == ts[..i] + NonSpaces(ts[i..])
  {
    assert ts[i..][1..] == ts[i + 1..];
    assert ts[..i + 1] == ts[..i] + [ts[i]];
    assert (ts[..i] + [ts[i]]) + NonSpaces(ts[i + 1..]) == ts[..i] + ([ts[i]] + NonSpaces(ts[i + 1..]));
  }

  /** Where no two SPACE tokens are side by side, the pass removes all of
      them. */
  lemma {:induction false} SpacesApartRemoved(ts: seq<JToken>, i: nat)
    requires i <= |ts| && SpacesApart(ts, i)
    ensures SpacesRemoved(ts, i) == ts[..i] + NonSpaces(ts[i..])
    decreases |ts| - i
  {
    if i == |ts| {
      assert ts[i..] == [] && ts[..i] == ts;
    } else if ts[i].kind != Space {
      SpacesApartRemoved(ts, i + 1);
      NonSpaceKept(ts, i);
    } else if i + 1 == |ts| {
      assert ts[..i] + ts[i + 1..] == ts[..i];
      assert ts[i..][1..] == [];
    } else {
      var ts' := ts[..i] + ts[i + 1..];
      SpaceDropped(ts, i);
      SpacesApartRemoved(ts', i + 1);
      NonSpacesAfterSpace(ts, i);
      assert (ts[..i] + [ts[i + 1]]) + NonSpaces(ts[i + 2..]) == ts[..i] + ([ts[i + 1]] + NonSpaces(ts[i + 2..]));
    }
  }

  /** Two SPACE tokens side by side: the second survives. */
  lemma AdjacentSpaceSurvives(ts: seq<JToken>, sp: JToken)
    requires sp.kind == Space && ts == [sp, sp]
    ensures SpacesRemoved(ts, 0) == [sp]
  {
    assert ts[..0] + ts[1..] == [sp];
  }

  // The in-place loops

  /** `newDigit.length()` removals at `i - (newDigit.length() - 1)`, then
      the OPERAND added there. */
  method SpliceLiteral(ts: seq<JToken>, i: nat, digits: string) returns (r: Result<seq<JToken>, JavaError>)
    requires i < |ts|
    ensures r == FuseAt(ts, i, digits)
  {
    var tokens := ts;
    var j := |digits|;
    while j > 0
      invariant 0 <= j <= |digits|
      invariant j < |digits| ==> |digits| <= i + 1
      invariant j == |digits| ==> tokens == ts
      invariant |digits| <= i + 1 ==> tokens == ts[..i + 1 - |digits|] + ts[i + 1 - j..]
    {
      if i < |digits| - 1 {
        r := Err(IndexOutOfBounds);
        return;
      }
      var at := i - (|digits| - 1);
      tokens := tokens[..at] + tokens[at + 1..];
      j := j - 1;
    }
    var lit := Literal(digits);
    if lit.Err? {
      r := Err(lit.error);
      return;
    }
    var at := i + 1 - |digits|;
    tokens := tokens[..at] + [lit.value] + tokens[at..];
    r := Ok(tokens);
  }

  /** The fusing loop of `concatenateExpression`. */
  method FuseRuns(ts: seq<JToken>) returns (r: Result<seq<JToken>, JavaError>)
    ensures r == FuseFrom(ts, 0, "")
  {
    var tokens := ts;
    var newDigit := "";
    var i: nat := 0;
    while i < |tokens|
      invariant i <= |tokens|
      invariant FuseFrom(tokens, i, newDigit) == FuseFrom(ts, 0, "")
      decreases |tokens| - i
    {
      var t := tokens[i];
      if IsRunType(t.kind) {
        newDigit := newDigit + t.show;
        if i + 1 == |tokens| {
          r := Err(IndexOutOfBounds);
          return;
        }
        if !IsRunType(tokens[i + 1].kind) {
          var fused := SpliceLiteral(tokens, i, newDigit);
          if fused.Err? {
            r := fused;
            return;
          }
          tokens := fused.value;
          i := i + 1 - |newDigit|;
          newDigit := "";
        }
      }
      i := i + 1;
    }
    r := Ok(tokens);
  }

  /** The space loop of `concatenateExpression`. */
  method RemoveSpaces(ts: seq<JToken>) returns (r: seq<JToken>)
    ensures r == SpacesRemoved(ts, 0)
  {
    var tokens := ts;
    var i := 0;
    while i < |tokens|
      invariant SpacesRemoved(tokens, i) == SpacesRemoved(ts, 0)
      decreases |tokens| - i
    {
      if tokens[i].kind == Space {
        tokens := tokens[..i] + tokens[i + 1..];
      }
      i := i + 1;
    }
    r := tokens;
  }

  /** `concatenateExpression(tokens)`: the list it leaves, or the exception. */
  method ConcatenateExpression(ts: seq<JToken>) returns (r: Result<seq<JToken>, JavaError>)
    ensures r == Concatenated(ts)
  {
    var fused := FuseRuns(ts);
    if fused.Err? {
      r := Err(fused.error);
      return;
    }
    var kept := RemoveSpaces(fused.value);
    r := Ok(kept);
  }
}

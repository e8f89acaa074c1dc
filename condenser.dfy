/** `condense` of the JavaScript calculator (calc/postfix.js): fuse each run of
    digit, decimal-point and sign tokens of a postfix stream into one OPERAND
    token, condense every function's argument the same way, then remove the
    SPACE separators.

    The source splices the token array in place and recurses into the
    `subtokens` array of each function token; here the stream is a value, and
    the condensed argument replaces the function token's `subtokens`. */
module Condenser {
  import opened Tokens
  import Numeric

  /** A token that starts or extends a literal run. */
  predicate IsRunToken(t: Token) {
    IsOperand(t) || t.kind == DECIMAL.kind || t.kind == NEGATIVE.kind
  }

  /** A token that keeps a run going when it follows a run token: a sign only
      ever starts one. */
  predicate ContinuesRun(t: Token) {
    IsOperand(t) || t.kind == DECIMAL.kind
  }

  /** A run token shows exactly one character of a literal. */
  predicate OneGlyph(t: Token) {
    IsRunToken(t) ==> |t.show| == 1 && Numeric.IsLiteralChar(t.show[0])
  }

  /** Every run token, at every nesting depth, shows exactly one character of a
      literal. This is what the source's splice arithmetic relies on: it removes
      as many tokens as the fused literal has characters. */
  predicate GlyphTokens(ts: seq<Token>)
    decreases ts
  {
    forall k :: 0 <= k < |ts| ==> OneGlyph(ts[k]) && (IsFunction(ts[k]) ==> GlyphTokens(ts[k].subtokens))
  }

  /** The glyphs of the tokens `ts[i..j]`, in order: what the source
      accumulates in `newDigit`. */
  function Glyphs(ts: seq<Token>, i: nat, j: nat): string
    requires i <= j <= |ts|
    decreases j - i
  {
    if j == i then "" else Glyphs(ts, i, j - 1) + ts[j - 1].show
  }

  /** The OPERAND token the source creates for the glyphs `s`, valued
      `parseFloat(s)` (None where that is NaN). */
  function Literal(s: string): Token {
    Token(OPERAND.kind, Numeric.ParseFloat(s), [], s, NoMath)
  }

  /** Where a run that reaches index `j - 1` ends, looking from `j` on. */
  function RunEnd(ts: seq<Token>, j: nat): (n: nat)
    requires 1 <= j <= |ts|
    ensures j <= n <= |ts|
    ensures forall m :: j <= m < n ==> ContinuesRun(ts[m])
    ensures n < |ts| ==> !ContinuesRun(ts[n])
    decreases |ts| - j
  {
    if j == |ts| || !ContinuesRun(ts[j]) then j else RunEnd(ts, j + 1)
  }

  /** The fusing pass over `ts[i..]` as a run decomposition: a run that some
      other token follows becomes one literal; a run that ends the stream is
      left as it is (its first token stays, and what follows it is again a run
      that ends the stream); a function token keeps its place with its
      argument condensed. */
  function Fused(ts: seq<Token>, i: nat): seq<Token>
    requires i <= |ts|
    decreases ts, 0, |ts| - i
  {
    if i == |ts| then []
    else if IsRunToken(ts[i]) then
      var n := RunEnd(ts, i + 1);
      if n == |ts| then [ts[i]] + Fused(ts, i + 1) else [Literal(Glyphs(ts, i, n))] + Fused(ts, n)
    else if IsFunction(ts[i]) then [ts[i].(subtokens := Condensed(ts[i].subtokens))] + Fused(ts, i + 1)
    else [ts[i]] + Fused(ts, i + 1)
  }

  /** The space-removal loop as written, over `ts[i..]`: a SPACE is deleted
      and the token that slides into its slot is passed over, so it stays even
      if it is a SPACE. */
  function SpacesRemoved(ts: seq<Token>, i: nat): (r: seq<Token>)
    requires i <= |ts|
    ensures |r| <= |ts| - i
    decreases |ts| - i
  {
    if i == |ts| then []
    else if ts[i].kind == SPACE.kind then
      if i + 1 == |ts| then [] else [ts[i + 1]] + SpacesRemoved(ts, i + 2)
    else [ts[i]] + SpacesRemoved(ts, i + 1)
  }

  /** What `condense` leaves in `ts`. */
  function Condensed(ts: seq<Token>): seq<Token>
    decreases ts, 1
  {
    SpacesRemoved(Fused(ts, 0), 0)
  }

  // The fusing pass, one case at a time.

  /** A run `ts[i..n]` that some token follows becomes one literal. */
  lemma FuseRun(ts: seq<Token>, i: nat, n: nat)
    requires i < n < |ts| && IsRunToken(ts[i])
    requires (forall m :: i < m < n ==> ContinuesRun(ts[m])) && !ContinuesRun(ts[n])
    ensures Fused(ts, i) == [Literal(Glyphs(ts, i, n))] + Fused(ts, n)
  {
    RunEndAt(ts, i + 1, n);
  }

  /** A run that reaches the end of the stream stays as it is. */
  lemma {:induction false} FuseTrailingRun(ts: seq<Token>, i: nat)
    requires i < |ts| && IsRunToken(ts[i])
    requires forall m :: i < m < |ts| ==> ContinuesRun(ts[m])
    ensures Fused(ts, i) == ts[i..]
    decreases |ts| - i
  {
    RunEndAt(ts, i + 1, |ts|);
    if i + 1 < |ts| {
      FuseTrailingRun(ts, i + 1);
      assert ts[i..] == [ts[i]] + ts[i + 1..];
    }
  }

  lemma {:induction false} RunEndAt(ts: seq<Token>, j: nat, n: nat)
    requires 1 <= j <= n <= |ts|
    requires (forall m :: j <= m < n ==> ContinuesRun(ts[m])) && (n < |ts| ==> !ContinuesRun(ts[n]))
    ensures RunEnd(ts, j) == n
    decreases n - j
  {
    if j < n {
      RunEndAt(ts, j + 1, n);
    }
  }

  /** A function token keeps its place, its argument condensed. */
  lemma FuseFunction(ts: seq<Token>, i: nat)
    requires i < |ts| && !IsRunToken(ts[i]) && IsFunction(ts[i])
    ensures Fused(ts, i) == [ts[i].(subtokens := Condensed(ts[i].subtokens))] + Fused(ts, i + 1)
  {
  }

  /** Any other token keeps its place. */
  lemma FuseOther(ts: seq<Token>, i: nat)
    requires i < |ts| && !IsRunToken(ts[i]) && !IsFunction(ts[i])
    ensures Fused(ts, i) == [ts[i]] + Fused(ts, i + 1)
  {
  }

  /** `condense`: the fusing loop, then the space-removal loop. */
  method Condense(tokens: seq<Token>) returns (ts: seq<Token>)
    requires GlyphTokens(tokens)
    ensures ts == Condensed(tokens)
    decreases tokens, 1
  {
    ts := FuseRuns(tokens);
    ts := RemoveSpaces(ts);
  }

  /** The tokens `ts[from..from + run]` are a run the fusing loop has read but
      not yet fused: a run token, then continuing tokens, and the token after
      them, if any, continues the run too (otherwise the run would have ended). */
  predicate Pending(ts: seq<Token>, from: nat, run: nat) {
    from + run <= |ts| &&
    (0 < run ==> IsRunToken(ts[from]) && (forall m :: from < m < from + run ==> ContinuesRun(ts[m]))
                 && (from + run < |ts| ==> ContinuesRun(ts[from + run])))
  }

  /** The state of the fusing loop over `input`: `ts` is the fused output so
      far, `ts[..out]`, followed by the input from `from` on; the first `run`
      tokens of that are the run being read, whose glyphs are `newDigit`, and
      `i` indexes the token after them. */
  ghost predicate Fusing(input: seq<Token>, ts: seq<Token>, i: nat, newDigit: string,
                         out: nat, from: nat, run: nat)
  {
    Reads(input, ts, i, out, from, run) && Digits(input, newDigit, from, run)
    && ts[..out] + Fused(input, from) == Fused(input, 0)
  }

  /** `newDigit` holds the glyphs of the pending run, one per token. */
  ghost predicate Digits(input: seq<Token>, newDigit: string, from: nat, run: nat) {
    from + run <= |input| && newDigit == Glyphs(input, from, from + run) && |newDigit| == run
  }

  /** The unread part of the fusing loop's stream: `ts` from `out` on is the
      input from `from` on, and the loop has read the `run` tokens of it up
      to `i`. */
  ghost predicate Reads(input: seq<Token>, ts: seq<Token>, i: nat, out: nat, from: nat, run: nat) {
    Pending(input, from, run) && out <= |ts| && |ts| - out == |input| - from && i == out + run
    && (forall k :: out <= k < |ts| ==> ts[k] == input[k - out + from])
  }

  /** The fusing loop of `condense`: each finished run is spliced out of the
      stream and its literal spliced in; a function's argument is condensed. */
  method FuseRuns(tokens: seq<Token>) returns (ts: seq<Token>)
    requires GlyphTokens(tokens)
    ensures ts == Fused(tokens, 0)
    decreases tokens, 0
  {
    ts := tokens;
    var newDigit := "";
    var i: nat := 0;
    ghost var out: nat := 0;
    ghost var from: nat := 0;
    ghost var run: nat := 0;
    assert ts[..0] == [];
    while i < |ts|
      invariant Fusing(tokens, ts, i, newDigit, out, from, run)
      decreases |ts| - i
    {
      Reading(tokens, ts, i, out, from, run);
      var curToken := ts[i];
      if IsOperand(curToken) || curToken.kind == DECIMAL.kind || curToken.kind == NEGATIVE.kind {
        ts, i, newDigit, out, from, run := ReadRunToken(tokens, ts, i, newDigit, out, from, run);
      } else if IsFunction(curToken) {
        var sub := Condense(curToken.subtokens);
        ghost var was := ts;
        ts := ts[i := curToken.(subtokens := sub)];
        FunctionStep(tokens, was, i, newDigit, out, from, run, ts);
        out, from := out + 1, from + 1;
      } else {
        OtherStep(tokens, ts, i, newDigit, out, from, run);
        out, from := out + 1, from + 1;
      }
      i := i + 1;
    }
    LoopDone(tokens, ts, i, newDigit, out, from, run);
  }

  /** The token the fusing loop reads, and the one after it, are those of the
      unread input. */
  lemma Reading(input: seq<Token>, ts: seq<Token>, i: nat, out: nat, from: nat, run: nat)
    requires GlyphTokens(input) && Reads(input, ts, i, out, from, run) && i < |ts|
    ensures from + run < |input| && ts[i] == input[from + run]
    ensures OneGlyph(ts[i]) && (IsFunction(ts[i]) ==> GlyphTokens(ts[i].subtokens))
    ensures (i + 1 < |ts|) == (from + run + 1 < |input|)
    ensures i + 1 < |ts| ==> ts[i + 1] == input[from + run + 1]
  {
    assert ts[i] == input[i - out + from];
    if i + 1 < |ts| {
      assert ts[i + 1] == input[i + 1 - out + from];
    }
  }

  /** The fusing loop's step on a run token: its glyph joins `newDigit`; if
      the next token is neither an operand nor a decimal point, the run ends
      and is spliced into its literal. The returned index is the one the loop
      then steps past. */
  method ReadRunToken(input: seq<Token>, tokens: seq<Token>, i: nat, digits: string,
                      ghost out: nat, ghost from: nat, ghost run: nat)
    returns (ts: seq<Token>, j: nat, newDigit: string, ghost out': nat, ghost from': nat, ghost run': nat)
    requires GlyphTokens(input) && Fusing(input, tokens, i, digits, out, from, run) && i < |tokens|
    requires IsOperand(tokens[i]) || tokens[i].kind == DECIMAL.kind || tokens[i].kind == NEGATIVE.kind
    ensures |ts| - (j + 1) < |tokens| - i
    ensures Fusing(input, ts, j + 1, newDigit, out', from', run')
  {
    newDigit := digits + tokens[i].show;
    if i + 1 < |tokens| && !IsOperand(tokens[i + 1]) && tokens[i + 1].kind != DECIMAL.kind {
      // Next token is not an operand or decimal: the run ends here.
      ts, j := EndRun(input, tokens, i, digits, newDigit, out, from, run);
      out', from', run' := out + 1, from + run + 1, 0;
      newDigit := "";
    } else {
      ExtendStep(input, tokens, i, digits, newDigit, out, from, run);
      ts, j, out', from', run' := tokens, i, out, from, run + 1;
    }
  }

  /** The end of the run at `i` in the fusing loop: its tokens are spliced
      out, its literal spliced in, and the returned index is where the run
      began, one before where reading resumes. */
  method EndRun(input: seq<Token>, tokens: seq<Token>, i: nat, ghost before: string, newDigit: string,
                ghost out: nat, ghost from: nat, ghost run: nat)
    returns (ts: seq<Token>, start: nat)
    requires GlyphTokens(input) && Fusing(input, tokens, i, before, out, from, run) && i < |tokens|
    requires IsRunToken(tokens[i]) && i + 1 < |tokens| && !ContinuesRun(tokens[i + 1])
    requires newDigit == before + tokens[i].show
    ensures |ts| - (start + 1) < |tokens| - i
    ensures Fusing(input, ts, start + 1, "", out + 1, from + run + 1, 0)
  {
    Reading(input, tokens, i, out, from, run);
    start := i - (|newDigit| - 1);
    ts := SpliceLiteral(tokens, i, newDigit, tokens[..out], tokens[out + |newDigit|..]);
    SpliceStep(input, tokens, i, before, newDigit, out, from, run, ts);
  }

  // One iteration of the fusing loop, case by case: the loop state before
  // and after.

  /** A run token that a non-continuing token follows ends the run: the run
      becomes its literal in the output. */
  lemma SpliceStep(input: seq<Token>, ts: seq<Token>, i: nat, d: string, d': string,
                   out: nat, from: nat, run: nat, ts': seq<Token>)
    requires Fusing(input, ts, i, d, out, from, run) && i + 1 < |ts|
    requires ts[i] == input[from + run] && ts[i + 1] == input[from + run + 1]
    requires IsRunToken(ts[i]) && OneGlyph(ts[i]) && !ContinuesRun(ts[i + 1])
    requires d' == d + ts[i].show
    requires ts' == ts[..out] + [Literal(d')] + ts[out + |d'|..]
    ensures |d'| == run + 1
    ensures Fusing(input, ts', out + 1, "", out + 1, from + run + 1, 0)
  {
    var next := from + run + 1;
    assert d' == Glyphs(input, from, next);
    SpliceShape(input, ts, out, from, run, Literal(d'), ts');
    FuseRun(input, from, next);
    AppendCons(ts[..out], Literal(d'), Fused(input, next));
  }

  /** The stream after the splice: the output, the literal, then the input
      after the run. */
  lemma SpliceShape(input: seq<Token>, ts: seq<Token>, out: nat, from: nat, run: nat,
                    lit: Token, ts': seq<Token>)
    requires out <= |ts| && |ts| - out == |input| - from && out + run + 1 < |ts|
    requires forall k :: out <= k < |ts| ==> ts[k] == input[k - out + from]
    requires ts' == ts[..out] + [lit] + ts[out + run + 1..]
    ensures ts'[..out + 1] == ts[..out] + [lit] && |ts'| - (out + 1) == |input| - (from + run + 1)
    ensures forall k :: out + 1 <= k < |ts'| ==> ts'[k] == input[k - (out + 1) + (from + run + 1)]
  {
    assert ts'[..out + 1] == ts[..out] + [lit];
    forall k | out + 1 <= k < |ts'| ensures ts'[k] == input[k - (out + 1) + (from + run + 1)] {
      assert ts'[k] == ts[k + run];
    }
  }

  /** A run token that a continuing token follows, or that ends the stream,
      lengthens the pending run by one glyph. */
  lemma ExtendStep(input: seq<Token>, ts: seq<Token>, i: nat, d: string, d': string,
                   out: nat, from: nat, run: nat)
    requires GlyphTokens(input) && Reads(input, ts, i, out, from, run) && Digits(input, d, from, run)
    requires i < |ts| && IsRunToken(ts[i]) && !(i + 1 < |ts| && !ContinuesRun(ts[i + 1]))
    requires d' == d + ts[i].show
    ensures Reads(input, ts, i + 1, out, from, run + 1) && Digits(input, d', from, run + 1)
  {
    Reading(input, ts, i, out, from, run);
  }

  /** A function token, read with no run pending, goes to the output with its
      argument condensed. */
  lemma FunctionStep(input: seq<Token>, ts: seq<Token>, i: nat, d: string,
                     out: nat, from: nat, run: nat, ts': seq<Token>)
    requires GlyphTokens(input) && Fusing(input, ts, i, d, out, from, run) && i < |ts|
    requires !IsRunToken(ts[i]) && IsFunction(ts[i])
    requires ts' == ts[i := ts[i].(subtokens := Condensed(ts[i].subtokens))]
    ensures Fusing(input, ts', i + 1, d, out + 1, from + 1, run)
  {
    Reading(input, ts, i, out, from, run);
    assert run == 0;
    FuseFunction(input, from);
    assert ts'[..out + 1] == ts[..out] + [ts'[i]];
    AppendCons(ts[..out], ts'[i], Fused(input, from + 1));
  }

  /** Any other token, read with no run pending, goes to the output as it is. */
  lemma OtherStep(input: seq<Token>, ts: seq<Token>, i: nat, d: string,
                  out: nat, from: nat, run: nat)
    requires GlyphTokens(input) && Fusing(input, ts, i, d, out, from, run) && i < |ts|
    requires !IsRunToken(ts[i]) && !IsFunction(ts[i])
    ensures Fusing(input, ts, i + 1, d, out + 1, from + 1, run)
  {
    Reading(input, ts, i, out, from, run);
    assert run == 0;
    FuseOther(input, from);
    assert ts[..out + 1] == ts[..out] + [ts[i]];
    AppendCons(ts[..out], ts[i], Fused(input, from + 1));
  }

  /** The loop has read everything: a pending run reaches the end of the
      stream and stays as it is. */
  lemma LoopDone(input: seq<Token>, ts: seq<Token>, i: nat, d: string,
                 out: nat, from: nat, run: nat)
    requires Fusing(input, ts, i, d, out, from, run) && i == |ts|
    ensures ts == Fused(input, 0)
  {
    if run == 0 {
      assert ts[..out] == ts;
    } else {
      FuseTrailingRun(input, from);
      assert ts == ts[..out] + input[from..];
    }
  }

  lemma AppendCons(out: seq<Token>, t: Token, tail: seq<Token>)
    ensures out + ([t] + tail) == (out + [t]) + tail
  {
  }

  /** The splice of the source's fusing loop: remove the `|newDigit|` tokens of
      the run that ends at `i`, one at a time, and insert the literal where the
      run began. */
  method SpliceLiteral(tokens: seq<Token>, i: nat, newDigit: string,
                       ghost out: seq<Token>, ghost rest: seq<Token>) returns (ts: seq<Token>)
    requires 1 <= |newDigit| && i + 1 == |out| + |newDigit|
    requires |tokens| == |out| + |newDigit| + |rest| && tokens[..|out|] == out
    requires tokens[|out| + |newDigit|..] == rest
    ensures ts == out + [Literal(newDigit)] + rest
  {
    ts := tokens;
    var j := |newDigit|;
    while j > 0
      invariant 0 <= j <= |newDigit|
      invariant |ts| == |out| + j + |rest| && ts[..|out|] == out && ts[|out| + j..] == rest
    {
      ts := ts[..i - (|newDigit| - 1)] + ts[i - (|newDigit| - 1) + 1..];
      j := j - 1;
    }
    assert ts == out + rest;
    var start := i - (|newDigit| - 1);
    ts := ts[..start] + [Literal(newDigit)] + ts[start..];
  }

  /** The state of the space-removal loop over `input`: `ts` is the kept
      output so far, `ts[..out]`, followed by the input from `from` on. */
  ghost predicate Removing(input: seq<Token>, ts: seq<Token>, out: nat, from: nat) {
    from <= |input| && out <= |ts| && |ts| - out == |input| - from
    && (forall k :: out <= k < |ts| ==> ts[k] == input[k - out + from])
    && ts[..out] + SpacesRemoved(input, from) == SpacesRemoved(input, 0)
  }

  /** The space-removal loop of `condense`. */
  method RemoveSpaces(tokens: seq<Token>) returns (ts: seq<Token>)
    ensures ts == SpacesRemoved(tokens, 0)
  {
    ts := tokens;
    ghost var out: nat := 0;
    ghost var from: nat := 0;
    assert ts[..0] == [];
    var i: nat := 0;
    while i < |ts|
      invariant Removing(tokens, ts, out, from)
      invariant i == out || (i == out + 1 && from == |tokens|)
      decreases |tokens| - from
    {
      if ts[i].kind == SPACE.kind {
        ghost var was := ts;
        ts := ts[..i] + ts[i + 1..];
        if from + 1 < |tokens| {
          DropSpace(tokens, was, out, from, ts);
          out, from := out + 1, from + 2;
        } else {
          DropLastSpace(tokens, was, out, from, ts);
          from := from + 1;
        }
      } else {
        KeepToken(tokens, ts, out, from);
        out, from := out + 1, from + 1;
      }
      i := i + 1;
    }
    RemoveDone(tokens, ts, out, from);
  }

  // One iteration of the space-removal loop, case by case, at index `out`.

  /** A SPACE is deleted; the token after it slides into its slot and is passed over. */
  lemma DropSpace(input: seq<Token>, ts: seq<Token>, out: nat, from: nat, ts': seq<Token>)
    requires Removing(input, ts, out, from) && out < |ts| && ts[out].kind == SPACE.kind
    requires from + 1 < |input| && ts' == ts[..out] + ts[out + 1..]
    ensures Removing(input, ts', out + 1, from + 2)
  {
    assert ts[out] == input[from] && ts[out + 1] == input[from + 1];
    assert ts'[..out + 1] == ts[..out] + [input[from + 1]];
    AppendCons(ts[..out], input[from + 1], SpacesRemoved(input, from + 2));
    forall k | out + 1 <= k < |ts'| ensures ts'[k] == input[k - (out + 1) + from + 2] {
      assert ts'[k] == ts[k + 1];
    }
  }

  /** A SPACE that ends the stream is deleted and the loop stops. */
  lemma DropLastSpace(input: seq<Token>, ts: seq<Token>, out: nat, from: nat, ts': seq<Token>)
    requires Removing(input, ts, out, from) && out < |ts| && ts[out].kind == SPACE.kind
    requires from + 1 == |input| && ts' == ts[..out] + ts[out + 1..]
    ensures Removing(input, ts', out, from + 1) && |ts'| == out
  {
    assert ts[out] == input[from];
    assert ts'[..out] == ts[..out];
  }

  /** Any other token is passed over. */
  lemma KeepToken(input: seq<Token>, ts: seq<Token>, out: nat, from: nat)
    requires Removing(input, ts, out, from) && out < |ts| && ts[out].kind != SPACE.kind
    ensures Removing(input, ts, out + 1, from + 1)
  {
    assert ts[out] == input[from];
    assert ts[..out + 1] == ts[..out] + [input[from]];
    AppendCons(ts[..out], input[from], SpacesRemoved(input, from + 1));
  }

  /** The loop has passed everything. */
  lemma RemoveDone(input: seq<Token>, ts: seq<Token>, out: nat, from: nat)
    requires Removing(input, ts, out, from) && out == |ts|
    ensures ts == SpacesRemoved(input, 0)
  {
    assert ts[..out] == ts;
  }
}

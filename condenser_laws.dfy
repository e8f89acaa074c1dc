/** What the condensing passes of calc/postfix.js keep and what they change:
    the glyphs survive fusing, fusing never lengthens the stream, the
    space-removal pass deletes only SPACE tokens, and the two places where the
    passes as written do less than their purpose. */
module CondenserLaws {
  import opened Tokens
  import opened Condenser

  // Glyphs

  lemma {:induction false} GlyphsSplit(ts: seq<Token>, i: nat, j: nat, k: nat)
    requires i <= j <= k <= |ts|
    ensures Glyphs(ts, i, k) == Glyphs(ts, i, j) + Glyphs(ts, j, k)
    decreases k - j
  {
    if j < k {
      GlyphsSplit(ts, i, j, k - 1);
    }
  }

  /** The glyphs of a stream are its first token's glyphs followed by the rest's. */
  lemma {:induction false} GlyphsCons(t: Token, r: seq<Token>, k: nat)
    requires k <= |r|
    ensures Glyphs([t] + r, 0, k + 1) == t.show + Glyphs(r, 0, k)
  {
    if k > 0 {
      GlyphsCons(t, r, k - 1);
      assert ([t] + r)[k] == r[k - 1];
    }
  }

  /** Fusing keeps every glyph of the stream, in order: a fused literal shows
      exactly the glyphs of the run it replaces. */
  lemma {:induction false} FusedKeepsGlyphs(ts: seq<Token>, i: nat)
    requires i <= |ts|
    ensures var r := Fused(ts, i); Glyphs(r, 0, |r|) == Glyphs(ts, i, |ts|)
    decreases |ts| - i
  {
    if i < |ts| {
      var r := Fused(ts, i);
      var head := r[0];
      var j := if IsRunToken(ts[i]) && RunEnd(ts, i + 1) < |ts| then RunEnd(ts, i + 1) else i + 1;
      var tail := Fused(ts, j);
      assert r == [head] + tail;
      assert head.show == Glyphs(ts, i, j);
      FusedKeepsGlyphs(ts, j);
      GlyphsCons(head, tail, |tail|);
      GlyphsSplit(ts, i, j, |ts|);
    }
  }

  /** Fusing never lengthens the stream; it shortens it by the length of every
      run it fuses, less one. */
  lemma {:induction false} FusedShorter(ts: seq<Token>, i: nat)
    requires i <= |ts|
    ensures |Fused(ts, i)| <= |ts| - i
    decreases |ts| - i
  {
    if i < |ts| {
      if IsRunToken(ts[i]) && RunEnd(ts, i + 1) < |ts| {
        FusedShorter(ts, RunEnd(ts, i + 1));
      } else {
        FusedShorter(ts, i + 1);
      }
    }
  }

  /** Every top-level run token is a fused literal: an OPERAND that shows its
      glyphs and holds their `parseFloat` value. */
  predicate RunsFused(r: seq<Token>) {
    forall k :: 0 <= k < |r| && IsRunToken(r[k]) ==> r[k] == Literal(r[k].show)
  }

  /** As written, a run that ends the stream is left unfused: the digits of
      "15" stay two digit tokens. */
  lemma TrailingRunNotFused()
    ensures Fused([ONE, FIVE], 0) == [ONE, FIVE]
    ensures !RunsFused(Fused([ONE, FIVE], 0))
  {
    var ts := [ONE, FIVE];
    FuseTrailingRun(ts, 0);
    assert ts[0..] == ts;
    assert IsRunToken(ONE) && ONE != Literal(ONE.show);
  }

  /** The fusing pass as intended: every run becomes one literal, the one that
      ends the stream included. */
  function FusedAll(ts: seq<Token>, i: nat): seq<Token>
    requires i <= |ts|
    decreases |ts| - i
  {
    if i == |ts| then []
    else if IsRunToken(ts[i]) then
      var n := RunEnd(ts, i + 1);
      [Literal(Glyphs(ts, i, n))] + FusedAll(ts, n)
    else if IsFunction(ts[i]) then [ts[i].(subtokens := Condensed(ts[i].subtokens))] + FusedAll(ts, i + 1)
    else [ts[i]] + FusedAll(ts, i + 1)
  }

  /** The intended pass leaves no run token unfused. */
  lemma {:induction false} FusedAllFusesRuns(ts: seq<Token>, i: nat)
    requires i <= |ts|
    ensures RunsFused(FusedAll(ts, i))
    decreases |ts| - i
  {
    if i < |ts| {
      var r := FusedAll(ts, i);
      var j := if IsRunToken(ts[i]) then RunEnd(ts, i + 1) else i + 1;
      var tail := FusedAll(ts, j);
      FusedAllFusesRuns(ts, j);
      assert r == [r[0]] + tail;
      forall k | 0 <= k < |r| && IsRunToken(r[k])
        ensures r[k] == Literal(r[k].show)
      {
        if k > 0 {
          assert r[k] == tail[k - 1];
        }
      }
    }
  }

  /** Where no run ends the stream, the as-written pass and the intended one
      agree. */
  lemma {:induction false} FusedAllAgrees(ts: seq<Token>, i: nat)
    requires i <= |ts|
    requires |ts| > 0 ==> !IsRunToken(ts[|ts| - 1])
    ensures FusedAll(ts, i) == Fused(ts, i)
    decreases |ts| - i
  {
    if i < |ts| {
      if IsRunToken(ts[i]) {
        var n := RunEnd(ts, i + 1);
        if n == |ts| {
          assert false;
        }
        FusedAllAgrees(ts, n);
      } else {
        FusedAllAgrees(ts, i + 1);
      }
    }
  }

  /** The intended pass keeps every glyph, in order. */
  lemma {:induction false} FusedAllKeepsGlyphs(ts: seq<Token>, i: nat)
    requires i <= |ts|
    ensures var r := FusedAll(ts, i); Glyphs(r, 0, |r|) == Glyphs(ts, i, |ts|)
    decreases |ts| - i
  {
    if i < |ts| {
      var r := FusedAll(ts, i);
      var head := r[0];
      var j := if IsRunToken(ts[i]) then RunEnd(ts, i + 1) else i + 1;
      var tail := FusedAll(ts, j);
      assert r == [head] + tail;
      assert head.show == Glyphs(ts, i, j);
      FusedAllKeepsGlyphs(ts, j);
      GlyphsCons(head, tail, |tail|);
      GlyphsSplit(ts, i, j, |ts|);
    }
  }

  // Space removal

  predicate IsSpace(t: Token) {
    t.kind == SPACE.kind
  }

  /** The tokens of `ts` that are not SPACE, in order. */
  function NonSpaces(ts: seq<Token>): (r: seq<Token>)
    ensures forall k :: 0 <= k < |r| ==> !IsSpace(r[k])
  {
    if ts == [] then []
    else if IsSpace(ts[0]) then NonSpaces(ts[1..])
    else [ts[0]] + NonSpaces(ts[1..])
  }

  lemma {:induction false} NonSpacesCons(t: Token, r: seq<Token>)
    ensures NonSpaces([t] + r) == (if IsSpace(t) then [] else [t]) + NonSpaces(r)
  {
    assert ([t] + r)[1..] == r;
  }

  /** The space-removal pass deletes only SPACE tokens: every other token
      survives, in its order. */
  lemma {:induction false} SpacesRemovedKeepsOthers(ts: seq<Token>, i: nat)
    requires i <= |ts|
    ensures NonSpaces(SpacesRemoved(ts, i)) == NonSpaces(ts[i..])
    decreases |ts| - i
  {
    if i < |ts| {
      assert ts[i..] == [ts[i]] + ts[i + 1..];
      NonSpacesCons(ts[i], ts[i + 1..]);
      if IsSpace(ts[i]) && i + 1 < |ts| {
        SpacesRemovedKeepsOthers(ts, i + 2);
        assert ts[i + 1..] == [ts[i + 1]] + ts[i + 2..];
        NonSpacesCons(ts[i + 1], ts[i + 2..]);
        NonSpacesCons(ts[i + 1], SpacesRemoved(ts, i + 2));
      } else if IsSpace(ts[i]) {
        assert ts[i + 1..] == [];
      } else {
        SpacesRemovedKeepsOthers(ts, i + 1);
        NonSpacesCons(ts[i], SpacesRemoved(ts, i + 1));
      }
    }
  }

  /** When no two SPACE tokens are adjacent, the pass removes all of them. */
  lemma {:induction false} SpacesRemovedClears(ts: seq<Token>, i: nat)
    requires i <= |ts|
    requires forall k :: i <= k < |ts| - 1 ==> !(IsSpace(ts[k]) && IsSpace(ts[k + 1]))
    ensures var r := SpacesRemoved(ts, i); forall k :: 0 <= k < |r| ==> !IsSpace(r[k])
    decreases |ts| - i
  {
    if i < |ts| {
      var r := SpacesRemoved(ts, i);
      if IsSpace(ts[i]) && i + 1 < |ts| {
        SpacesRemovedClears(ts, i + 2);
        assert !IsSpace(ts[i + 1]);
        assert r == [ts[i + 1]] + SpacesRemoved(ts, i + 2);
      } else if !IsSpace(ts[i]) {
        SpacesRemovedClears(ts, i + 1);
        assert r == [ts[i]] + SpacesRemoved(ts, i + 1);
      }
    }
  }

  /** A SPACE right after a removed SPACE slides into the freed slot and is
      passed over, so it survives. */
  lemma SecondSpaceSurvives()
    ensures SpacesRemoved([SPACE, SPACE], 0) == [SPACE]
    ensures SpacesRemoved([ONE, SPACE, SPACE, TWO], 0) == [ONE, SPACE, TWO]
  {
    var ts := [ONE, SPACE, SPACE, TWO];
    assert SpacesRemoved(ts, 4) == [];
    assert SpacesRemoved(ts, 1) == [SPACE, TWO];
    assert SpacesRemoved([SPACE, SPACE], 2) == [];
  }
}

/** The lexer of the JavaScript calculator (calc/lexer.js): a left-to-right
    character scan that emits catalog tokens, followed by a pass that retags the
    close parenthesis ending each function's argument as FUNCTION_CLOSE. */
module Lexer {
  import opened Outcomes
  import opened Tokens
  import Numeric

  /** Why tokenizing fails. The source's messages carry no payload: the extra
      arguments given to `Error` are dropped. `UndefinedToken` is the TypeError
      the retagging pass raises on an entry the scan left undefined. */
  datatype LexError = UnknownFunction | UnknownCharacter | UndefinedToken

  /** An entry of the scan's output; `None` is JavaScript's `undefined`. */
  type Slot = Option<Token>

  predicate IsAsciiLetter(c: char) {
    'a' <= c <= 'z' || 'A' <= c <= 'Z'
  }

  /** The characters that `Number` turns into 0 (white space and line
      terminators of ECMAScript), so that `isNaN` is false for them as for digits. */
  predicate IsJsWhitespace(c: char) {
    '\t' <= c <= '\r' || c == ' ' || c == '\U{00A0}' || c == '\U{1680}'
    || '\U{2000}' <= c <= '\U{200A}' || c == '\U{2028}' || c == '\U{2029}' || c == '\U{202F}'
    || c == '\U{205F}' || c == '\U{3000}' || c == '\U{FEFF}'
  }

  /** A letter that starts a function name: any ASCII letter but x, e, p and i. */
  predicate StartsFunctionName(c: char) {
    IsAsciiLetter(c) && c != 'x' && c != 'e' && c != 'p' && c != 'i'
  }

  /** JavaScript's `substring(start, end)` for `start <= end`: clamped to the string. */
  function Substring(s: string, start: nat, end: nat): (r: string)
    requires start <= |s| && start <= end
    ensures |r| <= end - start && (end <= |s| ==> |r| == end - start)
  {
    s[start..if end <= |s| then end else |s|]
  }

  /** Whether the `n` characters from `i` (fewer at the end) name a function. */
  predicate NamesFunction(expr: string, i: nat, n: nat)
    requires i <= |expr|
  {
    Substring(expr, i, i + n) in FUNCTION_MAP
  }

  /** The function-name lookup: try the names of length `j`, `j`+1, ... 4 starting
      at `i`; on the first hit return its token and length. */
  function FindFunction(expr: string, i: nat, j: nat): (r: Result<(Token, nat), LexError>)
    requires i < |expr| && 2 <= j <= 5
    ensures r.Ok? ==>
      j <= r.value.1 <= 4 && NamesFunction(expr, i, r.value.1)
      && r.value.0 == FUNCTION_MAP[Substring(expr, i, i + r.value.1)]
    ensures r.Err? ==> r.error == UnknownFunction
    decreases 5 - j
  {
    if j > 4 then Err(UnknownFunction)
    else
      var show := Substring(expr, i, i + j);
      if show in FUNCTION_MAP then Ok((FUNCTION_MAP[show], j))
      else FindFunction(expr, i, j + 1)
  }

  /** The shortest-first lookup finds the shortest name from `j` on, and fails
      exactly when no length from `j` to 4 names a function. */
  lemma {:induction false} FindFunctionFindsShortest(expr: string, i: nat, j: nat)
    requires i < |expr| && 2 <= j <= 5
    ensures var r := FindFunction(expr, i, j);
      (r.Ok? ==> forall m :: j <= m < r.value.1 ==> !NamesFunction(expr, i, m))
      && (r.Err? <==> forall m :: j <= m <= 4 ==> !NamesFunction(expr, i, m))
    decreases 5 - j
  {
    var r := FindFunction(expr, i, j);
    if j > 4 {
      assert r.Err?;
    } else if NamesFunction(expr, i, j) {
      assert r == Ok((FUNCTION_MAP[Substring(expr, i, i + j)], j));
    } else {
      assert r == FindFunction(expr, i, j + 1);
      FindFunctionFindsShortest(expr, i, j + 1);
    }
  }

  /** The longest-first lookup: try the names of length `j`, `j`-1, ... 2. */
  function FindFunctionLongest(expr: string, i: nat, j: nat): (r: Result<(Token, nat), LexError>)
    requires i < |expr| && 1 <= j <= 4
    ensures r.Ok? ==>
      2 <= r.value.1 <= j && NamesFunction(expr, i, r.value.1)
      && r.value.0 == FUNCTION_MAP[Substring(expr, i, i + r.value.1)]
    ensures r.Err? ==> r.error == UnknownFunction
    decreases j
  {
    if j < 2 then Err(UnknownFunction)
    else
      var show := Substring(expr, i, i + j);
      if show in FUNCTION_MAP then Ok((FUNCTION_MAP[show], j))
      else FindFunctionLongest(expr, i, j - 1)
  }

  /** The longest-first lookup finds the longest name up to `j`, and fails
      exactly when no length from 2 to `j` names a function. */
  lemma {:induction false} FindFunctionLongestFindsLongest(expr: string, i: nat, j: nat)
    requires i < |expr| && 1 <= j <= 4
    ensures var r := FindFunctionLongest(expr, i, j);
      (r.Ok? ==> forall m :: r.value.1 < m <= j ==> !NamesFunction(expr, i, m))
      && (r.Err? <==> forall m :: 2 <= m <= j ==> !NamesFunction(expr, i, m))
    decreases j
  {
    LongestSkipsLonger(expr, i, j);
    LongestFailsExactly(expr, i, j);
  }

  /** A name the longest-first lookup finds has no longer name up to `j` beside it. */
  lemma {:induction false} LongestSkipsLonger(expr: string, i: nat, j: nat)
    requires i < |expr| && 1 <= j <= 4
    ensures var r := FindFunctionLongest(expr, i, j);
      r.Ok? ==> forall m :: r.value.1 < m <= j ==> !NamesFunction(expr, i, m)
    decreases j
  {
    var r := FindFunctionLongest(expr, i, j);
    if j < 2 {
      assert r.Err?;
    } else if !NamesFunction(expr, i, j) {
      assert r == FindFunctionLongest(expr, i, j - 1);
      LongestSkipsLonger(expr, i, j - 1);
      if r.Ok? {
        forall m | r.value.1 < m <= j ensures !NamesFunction(expr, i, m) {
          if m < j {
            assert r.value.1 < m <= j - 1;
          }
        }
      }
    } else {
      assert r.value.1 == j;
    }
  }

  /** The longest-first lookup fails exactly when no length from 2 to `j` names a function. */
  lemma {:induction false} LongestFailsExactly(expr: string, i: nat, j: nat)
    requires i < |expr| && 1 <= j <= 4
    ensures FindFunctionLongest(expr, i, j).Err? <==> forall m :: 2 <= m <= j ==> !NamesFunction(expr, i, m)
    decreases j
  {
    if 2 <= j && !NamesFunction(expr, i, j) {
      assert FindFunctionLongest(expr, i, j) == FindFunctionLongest(expr, i, j - 1);
      LongestFailsExactly(expr, i, j - 1);
    }
  }

  /** How the scan looks up a function name: `ShortestFirst` is the lexer as
      written; `LongestFirst` is the lookup that lets every name be reached. */
  datatype NameLookup = ShortestFirst | LongestFirst

  function LookupName(lookup: NameLookup, expr: string, i: nat): (r: Result<(Token, nat), LexError>)
    requires i < |expr|
    ensures r.Ok? ==>
      2 <= r.value.1 <= 4 && NamesFunction(expr, i, r.value.1)
      && r.value.0 == FUNCTION_MAP[Substring(expr, i, i + r.value.1)]
    ensures r.Err? ==> r.error == UnknownFunction
  {
    match lookup
    case ShortestFirst => FindFunction(expr, i, 2)
    case LongestFirst => FindFunctionLongest(expr, i, 4)
  }

  /** Both lookups fail exactly when no two to four characters from `i` name
      a function. */
  lemma LookupNameFails(lookup: NameLookup, expr: string, i: nat)
    requires i < |expr|
    ensures LookupName(lookup, expr, i).Err? <==> forall m :: 2 <= m <= 4 ==> !NamesFunction(expr, i, m)
  {
    match lookup
    case ShortestFirst => FindFunctionFindsShortest(expr, i, 2);
    case LongestFirst => FindFunctionLongestFindsLongest(expr, i, 4);
  }

  /** One iteration of the scan at position `i`: the entries it emits and the
      position where the next iteration starts. */
  function ScanStep(lookup: NameLookup, expr: string, i: nat): (r: Result<(seq<Slot>, nat), LexError>)
    requires i < |expr|
    ensures r.Ok? ==> 1 <= |r.value.0| && i + |r.value.0| <= r.value.1 && i + |r.value.0| <= |expr|
  {
    var c := expr[i];
    if c == ' ' then Ok(([Some(SPACE)], i + 1))
    else if Numeric.IsDigitChar(c) then Ok(([Some(DIGIT_MAP[Numeric.DigitValue(c)])], i + 1))
    else if IsJsWhitespace(c) then Ok(([None], i + 1))
    else if StartsFunctionName(c) then
      var (fn, j) :- LookupName(lookup, expr, i);
      assert i + 2 <= |expr| by {
        if i + 2 > |expr| {
          ShortStringsAreNotNames(Substring(expr, i, i + j));
        }
      }
      Ok(([Some(fn), Some(FUNCTION_OPEN)], i + j + 1))
    else if c == 'x' then Ok(([Some(VARIABLE)], i + 1))
    else if c == '(' then Ok(([Some(OPEN_PARENTHESIS)], i + 1))
    else if c == ')' then Ok(([Some(CLOSE_PARENTHESIS)], i + 1))
    else if c == '.' then Ok(([Some(DECIMAL)], i + 1))
    else if c == 'e' then Ok(([Some(E)], i + 1))
    else if c == 'p' && i + 1 < |expr| && expr[i + 1] == 'i' then Ok(([Some(PI)], i + 2))
    else if c in OPERATOR_MAP then Ok(([Some(OPERATOR_MAP[c])], i + 1))
    else Err(UnknownCharacter)
  }

  /** The scan from position `i`, having emitted `acc` so far. */
  function Scan(lookup: NameLookup, expr: string, i: nat, acc: seq<Slot>): Result<seq<Slot>, LexError>
    decreases |expr| - i
  {
    if i >= |expr| then Ok(acc)
    else
      var (emitted, next) :- ScanStep(lookup, expr, i);
      Scan(lookup, expr, next, acc + emitted)
  }

  /** The scan's entries, or UndefinedToken if one is undefined. */
  function Defined(slots: seq<Slot>): (r: Result<seq<Token>, LexError>)
    ensures r.Ok? <==> forall k :: 0 <= k < |slots| ==> slots[k].Some?
    ensures r.Ok? ==> |r.value| == |slots| && forall k :: 0 <= k < |slots| ==> slots[k] == Some(r.value[k])
    ensures r.Err? ==> r.error == UndefinedToken
  {
    if slots == [] then Ok([])
    else if slots[0].None? then Err(UndefinedToken)
    else
      match Defined(slots[1..])
      case Err(e) => Err(e)
      case Ok(rest) => Ok([slots[0].value] + rest)
  }

  /** The change of the retagging pass's parenthesis counter on one token:
      only OPEN_PARENTHESIS and CLOSE_PARENTHESIS count. */
  function Delta(t: Token): int {
    if t.kind == OPEN_PARENTHESIS.kind then 1
    else if t.kind == CLOSE_PARENTHESIS.kind then -1
    else 0
  }

  /** Opened minus closed parentheses in `s`. */
  function Balance(s: seq<Token>): int {
    if s == [] then 0 else Delta(s[0]) + Balance(s[1..])
  }

  /** The inner loop of the retagging pass: scanning from `j` with counter
      `depth`, the index of the first CLOSE_PARENTHESIS met while the counter is 0. */
  function MatchingClose(ts: seq<Token>, j: nat, depth: nat): (r: Option<nat>)
    ensures r.Some? ==> j <= r.value < |ts| && ts[r.value].kind == CLOSE_PARENTHESIS.kind
    decreases |ts| - j
  {
    if j >= |ts| then None
    else if ts[j].kind == OPEN_PARENTHESIS.kind then MatchingClose(ts, j + 1, depth + 1)
    else if ts[j].kind == CLOSE_PARENTHESIS.kind && depth == 0 then Some(j)
    else if ts[j].kind == CLOSE_PARENTHESIS.kind then MatchingClose(ts, j + 1, depth - 1)
    else MatchingClose(ts, j + 1, depth)
  }

  /** The retagging pass from position `i`: each function token retags the
      close parenthesis that matches it, looking from two tokens past it (past
      its FUNCTION_OPEN). Only CLOSE_PARENTHESIS entries change, and only into
      FUNCTION_CLOSE. */
  function RetagFrom(ts: seq<Token>, i: nat): (r: seq<Token>)
    ensures |r| == |ts|
    ensures forall k :: 0 <= k < |ts| ==>
      r[k] == ts[k] || (ts[k].kind == CLOSE_PARENTHESIS.kind && r[k] == FUNCTION_CLOSE)
    ensures forall k :: 0 <= k < |ts| && k < i + 2 ==> r[k] == ts[k]
    decreases |ts| - i
  {
    if i >= |ts| then ts
    else if IsFunction(ts[i]) then
      match MatchingClose(ts, i + 2, 0)
      case None => RetagFrom(ts, i + 1)
      case Some(k) => RetagFrom(ts[k := FUNCTION_CLOSE], i + 1)
    else RetagFrom(ts, i + 1)
  }

  /** A function token whose close parenthesis is found: that entry is retagged
      before the pass moves on. */
  lemma RetagMatched(ts: seq<Token>, i: nat, k: nat)
    requires i < |ts| && IsFunction(ts[i]) && MatchingClose(ts, i + 2, 0) == Some(k)
    ensures RetagFrom(ts, i) == RetagFrom(ts[k := FUNCTION_CLOSE], i + 1)
  {
  }

  /** A function token whose close parenthesis is missing: the pass moves on. */
  lemma RetagUnmatched(ts: seq<Token>, i: nat)
    requires i < |ts| && IsFunction(ts[i]) && MatchingClose(ts, i + 2, 0) == None
    ensures RetagFrom(ts, i) == RetagFrom(ts, i + 1)
  {
  }

  /** The lexer with the given name lookup. */
  function TokenizeWith(lookup: NameLookup, expr: string): Result<seq<Token>, LexError> {
    var slots :- Scan(lookup, expr, 0, []);
    var ts :- Defined(slots);
    Ok(RetagFrom(ts, 0))
  }

  /** What `tokenize` returns for `expr`. */
  function TokenizeSpec(expr: string): Result<seq<Token>, LexError> {
    TokenizeWith(ShortestFirst, expr)
  }

  /** `tokenize`: the scan loop, then the retagging pass over the result. */
  method Tokenize(expression: string) returns (r: Result<seq<Token>, LexError>)
    ensures r == TokenizeSpec(expression)
  {
    var scanned := ScanExpression(expression);
    if scanned.Err? {
      return Err(scanned.error);
    }
    var tokens := scanned.value;
    // The retagging pass reads every entry: an undefined one raises a TypeError.
    var ts: seq<Token> := [];
    var k := 0;
    while k < |tokens|
      invariant k <= |tokens| && |ts| == k
      invariant forall m :: 0 <= m < k ==> tokens[m] == Some(ts[m])
    {
      if tokens[k].None? {
        return Err(UndefinedToken);
      }
      ts := ts + [tokens[k].value];
      k := k + 1;
    }
    assert forall m :: 0 <= m < |tokens| ==> tokens[m].Some?;
    assert Defined(tokens).value == ts;
    ts := RetagFunctionCloses(ts);
    r := Ok(ts);
  }

  /** The first loop of `tokenize`: one catalog token (or undefined) per
      character, two per function name, one per `pi`. */
  method ScanExpression(expression: string) returns (r: Result<seq<Slot>, LexError>)
    ensures r == Scan(ShortestFirst, expression, 0, [])
  {
    var tokens: seq<Slot> := [];
    var i := 0;
    while i < |expression|
      invariant Scan(ShortestFirst, expression, 0, []) == Scan(ShortestFirst, expression, i, tokens)
      decreases |expression| - i
    {
      ScanUnfold(ShortestFirst, expression, i, tokens);
      var step := ScanCharacter(expression, i);
      if step.Err? {
        return Err(step.error);
      }
      tokens := tokens + step.value.0;
      i := step.value.1;
    }
    r := Ok(tokens);
  }

  /** The body of the scan loop for the character at position `i`: the
      entries it appends and the position of the next character. */
  method ScanCharacter(expression: string, i: nat) returns (r: Result<(seq<Slot>, nat), LexError>)
    requires i < |expression|
    ensures r == ScanStep(ShortestFirst, expression, i)
  {
    var curChar := expression[i];
    if curChar == ' ' {
      r := Ok(([Some(SPACE)], i + 1));
    } else if Numeric.IsDigitChar(curChar) {
      r := Ok(([Some(DIGIT_MAP[Numeric.DigitValue(curChar)])], i + 1));
    } else if IsJsWhitespace(curChar) {
      // `isNaN` is false, and the digit map has no entry for it.
      r := Ok(([None], i + 1));
    } else if StartsFunctionName(curChar) {
      r := ScanFunctionName(expression, i);
    } else if curChar == 'x' {
      r := Ok(([Some(VARIABLE)], i + 1));
    } else if curChar == '(' {
      r := Ok(([Some(OPEN_PARENTHESIS)], i + 1));
    } else if curChar == ')' {
      r := Ok(([Some(CLOSE_PARENTHESIS)], i + 1));
    } else if curChar == '.' {
      r := Ok(([Some(DECIMAL)], i + 1));
    } else if curChar == 'e' {
      r := Ok(([Some(E)], i + 1));
    } else if curChar == 'p' && i + 1 < |expression| && expression[i + 1] == 'i' {
      r := Ok(([Some(PI)], i + 1 + 1));
    } else if curChar in OPERATOR_MAP {
      r := Ok(([Some(OPERATOR_MAP[curChar])], i + 1));
    } else {
      r := Err(UnknownCharacter);
    }
  }

  /** A function name: its token and FUNCTION_OPEN, then the scan resumes
      past the character after the name, which stands for its `(`. */
  method ScanFunctionName(expression: string, i: nat) returns (r: Result<(seq<Slot>, nat), LexError>)
    requires i < |expression| && StartsFunctionName(expression[i])
    ensures r == ScanStep(ShortestFirst, expression, i)
  {
    var found := LookupFunction(expression, i);
    if found.Err? {
      NameMissing(ShortestFirst, expression, i);
      return Err(found.error);
    }
    var (fn, j) := found.value;
    NameFound(ShortestFirst, expression, i, fn, j);
    r := Ok(([Some(fn), Some(FUNCTION_OPEN)], i + (j - 1) + 1 + 1));
  }

  /** The function-name loop of `tokenize`: grow the candidate from two
      characters until it is a key of the function map, failing past four. */
  method LookupFunction(expression: string, i: nat) returns (r: Result<(Token, nat), LexError>)
    requires i < |expression|
    ensures r == FindFunction(expression, i, 2)
  {
    var j := 2;
    var show := Substring(expression, i, i + j);
    while show !in FUNCTION_MAP
      invariant 2 <= j <= 4 && show == Substring(expression, i, i + j)
      invariant FindFunction(expression, i, 2) == FindFunction(expression, i, j)
      decreases 4 - j
    {
      j := j + 1;
      show := Substring(expression, i, i + j);
      if j > 4 {
        return Err(UnknownFunction);
      }
    }
    r := Ok((FUNCTION_MAP[show], j));
  }

  /** The second loop of `tokenize`: for each function token, retag the close
      parenthesis that matches it. */
  method RetagFunctionCloses(tokens: seq<Token>) returns (ts: seq<Token>)
    ensures ts == RetagFrom(tokens, 0)
  {
    ts := tokens;
    var i := 0;
    while i < |ts|
      invariant |ts| == |tokens|
      invariant RetagFrom(tokens, 0) == RetagFrom(ts, i)
    {
      if IsFunction(ts[i]) {
        ts := RetagMatchingClose(ts, i);
      }
      i := i + 1;
    }
  }

  /** The inner loop of the retagging pass for the function token at `i`:
      count parentheses from past its FUNCTION_OPEN and retag the first close
      parenthesis met at count 0. */
  method RetagMatchingClose(tokens: seq<Token>, i: nat) returns (ts: seq<Token>)
    requires i < |tokens| && IsFunction(tokens[i])
    ensures |ts| == |tokens| && RetagFrom(tokens, i) == RetagFrom(ts, i + 1)
  {
    ts := tokens;
    var parenthesisCount: nat := 0;
    // Skip the function's own opening parenthesis.
    var j := i + 2;
    while j < |ts|
      invariant i + 2 <= j
      invariant MatchingClose(ts, i + 2, 0) == MatchingClose(ts, j, parenthesisCount)
    {
      if ts[j].kind == OPEN_PARENTHESIS.kind {
        parenthesisCount := parenthesisCount + 1;
      } else if ts[j].kind == CLOSE_PARENTHESIS.kind && parenthesisCount == 0 {
        RetagMatched(ts, i, j);
        ts := ts[j := FUNCTION_CLOSE];
        return;
      } else if ts[j].kind == CLOSE_PARENTHESIS.kind {
        parenthesisCount := parenthesisCount - 1;
      }
      j := j + 1;
    }
    RetagUnmatched(ts, i);
  }

  // Properties of the lexer.

  /** The catalog tokens that a single character stands for. */
  const SINGLE_CHAR_TOKENS: seq<Token> := [
    SPACE, ZERO, ONE, TWO, THREE, FOUR, FIVE, SIX, SEVEN, EIGHT, NINE,
    VARIABLE, OPEN_PARENTHESIS, CLOSE_PARENTHESIS, DECIMAL, E,
    ADDITION, SUBTRACTION, MULTIPLICATION, DIVISION, POW]

  predicate IsSingleCharToken(c: char) {
    c == ' ' || Numeric.IsDigitChar(c) || IsSymbolChar(c) || IsOperatorChar(c)
  }

  /** A space, a digit, `x`, a parenthesis, `.`, `e` or an operator glyph is one
      step of the scan that emits the catalog token displaying that character. */
  lemma SingleCharStep(lookup: NameLookup, expr: string, i: nat)
    requires i < |expr| && IsSingleCharToken(expr[i])
    ensures ScanStep(lookup, expr, i).Ok?
    ensures var (emitted, next) := ScanStep(lookup, expr, i).value;
      next == i + 1 && |emitted| == 1 && emitted[0].Some?
      && emitted[0].value in SINGLE_CHAR_TOKENS && emitted[0].value.show == [expr[i]]
  {
    var c := expr[i];
    if c == ' ' {
      assert SPACE == SINGLE_CHAR_TOKENS[0];
    } else if Numeric.IsDigitChar(c) {
      var d := Numeric.DigitValue(c);
      DigitMapEntries(d);
      assert Numeric.DigitGlyph(d) == c;
      assert DIGIT_MAP[d] == SINGLE_CHAR_TOKENS[d + 1];
    } else if IsSymbolChar(c) {
      SymbolStep(lookup, expr, i);
    } else {
      OperatorStep(lookup, expr, i);
    }
  }

  predicate IsSymbolChar(c: char) {
    c == 'x' || c == '(' || c == ')' || c == '.' || c == 'e'
  }

  predicate IsOperatorChar(c: char) {
    c == '+' || c == '-' || c == '*' || c == '/' || c == '^'
  }

  lemma SymbolStep(lookup: NameLookup, expr: string, i: nat)
    requires i < |expr| && IsSymbolChar(expr[i])
    ensures ScanStep(lookup, expr, i).Ok?
    ensures var (emitted, next) := ScanStep(lookup, expr, i).value;
      next == i + 1 && |emitted| == 1 && emitted[0].Some?
      && emitted[0].value in SINGLE_CHAR_TOKENS && emitted[0].value.show == [expr[i]]
  {
    var c := expr[i];
    if c == 'x' {
      assert VARIABLE == SINGLE_CHAR_TOKENS[11];
    } else if c == '(' {
      assert OPEN_PARENTHESIS == SINGLE_CHAR_TOKENS[12];
    } else if c == ')' {
      assert CLOSE_PARENTHESIS == SINGLE_CHAR_TOKENS[13];
    } else if c == '.' {
      assert DECIMAL == SINGLE_CHAR_TOKENS[14];
    } else {
      assert c == 'e';
      assert E == SINGLE_CHAR_TOKENS[15];
    }
  }

  /** An operator glyph scans to its entry in the operator table. */
  lemma OperatorScan(lookup: NameLookup, expr: string, i: nat)
    requires i < |expr| && IsOperatorChar(expr[i])
    ensures expr[i] in OPERATOR_MAP
    ensures ScanStep(lookup, expr, i) == Ok(([Some(OPERATOR_MAP[expr[i]])], i + 1))
  {
  }

  lemma OperatorStep(lookup: NameLookup, expr: string, i: nat)
    requires i < |expr| && IsOperatorChar(expr[i])
    ensures ScanStep(lookup, expr, i).Ok?
    ensures var (emitted, next) := ScanStep(lookup, expr, i).value;
      next == i + 1 && |emitted| == 1 && emitted[0].Some?
      && emitted[0].value in SINGLE_CHAR_TOKENS && emitted[0].value.show == [expr[i]]
  {
    OperatorScan(lookup, expr, i);
    OperatorMapEntries();
    OperatorTokensAreSingleChar();
  }

  /** Every operator token is one of the single-character tokens. */
  lemma OperatorTokensAreSingleChar()
    ensures forall c :: c in OPERATOR_MAP ==> OPERATOR_MAP[c] in SINGLE_CHAR_TOKENS
  {
    assert SINGLE_CHAR_TOKENS[16..] == [ADDITION, SUBTRACTION, MULTIPLICATION, DIVISION, POW];
  }

  /** `slots` holds, entry by entry, the catalog token displaying each character of `chars`. */
  predicate DisplaysChars(slots: seq<Slot>, chars: string) {
    |slots| == |chars|
    && forall k :: 0 <= k < |slots| ==>
         slots[k].Some? && slots[k].value in SINGLE_CHAR_TOKENS && slots[k].value.show == [chars[k]]
  }

  /** One more displayed character, at the front of what a scan appends. */
  lemma DisplaysStep(acc: seq<Slot>, emitted: seq<Slot>, out: seq<Slot>, chars: string)
    requires |chars| > 0 && |emitted| == 1 && emitted[0].Some?
    requires emitted[0].value in SINGLE_CHAR_TOKENS && emitted[0].value.show == [chars[0]]
    requires |acc| + 1 <= |out| && out[..|acc| + 1] == acc + emitted
    requires DisplaysChars(out[|acc| + 1..], chars[1..])
    ensures out[..|acc|] == acc && DisplaysChars(out[|acc|..], chars)
  {
    assert out[..|acc|] == out[..|acc| + 1][..|acc|];
    var tail := out[|acc|..];
    assert tail[0] == emitted[0];
    assert tail[1..] == out[|acc| + 1..];
  }

  /** Scanning a run of such characters appends one token per character. */
  lemma {:induction false} ScanSingleChars(lookup: NameLookup, expr: string, i: nat, acc: seq<Slot>)
    requires i <= |expr|
    requires forall k :: i <= k < |expr| ==> IsSingleCharToken(expr[k])
    ensures Scan(lookup, expr, i, acc).Ok?
    ensures |acc| <= |Scan(lookup, expr, i, acc).value|
    ensures Scan(lookup, expr, i, acc).value[..|acc|] == acc
    ensures DisplaysChars(Scan(lookup, expr, i, acc).value[|acc|..], expr[i..])
    decreases |expr| - i
  {
    if i < |expr| {
      SingleCharStep(lookup, expr, i);
      var (emitted, next) := ScanStep(lookup, expr, i).value;
      ScanSingleChars(lookup, expr, next, acc + emitted);
      ScanUnfold(lookup, expr, i, acc);
      var out := Scan(lookup, expr, next, acc + emitted).value;
      assert expr[next..] == expr[i..][1..];
      DisplaysStep(acc, emitted, out, expr[i..]);
    } else {
      assert Scan(lookup, expr, i, acc).value[|acc|..] == [];
    }
  }

  /** One turn of the scan loop. */
  lemma ScanUnfold(lookup: NameLookup, expr: string, i: nat, acc: seq<Slot>)
    requires i < |expr|
    ensures var step := ScanStep(lookup, expr, i);
      Scan(lookup, expr, i, acc)
      == if step.Err? then Err(step.error) else Scan(lookup, expr, step.value.1, acc + step.value.0)
  {
  }

  /** A letter that starts a function name which the lookup finds: the step
      emits its token and FUNCTION_OPEN, and skips the character after the name. */
  lemma NameFound(lookup: NameLookup, expr: string, i: nat, fn: Token, j: nat)
    requires i < |expr| && StartsFunctionName(expr[i]) && LookupName(lookup, expr, i) == Ok((fn, j))
    ensures ScanStep(lookup, expr, i) == Ok(([Some(fn), Some(FUNCTION_OPEN)], i + j + 1))
  {
    LetterIsNotBlank(expr[i]);
  }

  /** A letter that starts a function name is neither a space, a digit nor
      white space, so the scan step reaches the name branch. */
  lemma LetterIsNotBlank(c: char)
    requires StartsFunctionName(c)
    ensures c != ' ' && !Numeric.IsDigitChar(c) && !IsJsWhitespace(c)
  {
  }

  /** A letter that starts no function name the lookup finds: the scan fails. */
  lemma NameMissing(lookup: NameLookup, expr: string, i: nat)
    requires i < |expr| && StartsFunctionName(expr[i]) && LookupName(lookup, expr, i).Err?
    ensures ScanStep(lookup, expr, i) == Err(UnknownFunction)
  {
  }

  /** The retagging pass changes nothing from a point with no function token after it. */
  lemma {:induction false} RetagWithoutFunctionsFrom(ts: seq<Token>, i: nat)
    requires forall k :: i <= k < |ts| ==> !IsFunction(ts[k])
    ensures RetagFrom(ts, i) == ts
    decreases |ts| - i
  {
    if i < |ts| {
      RetagWithoutFunctionsFrom(ts, i + 1);
    }
  }

  /** A string of spaces, digits, `x`, parentheses, `.`, `e` and operator glyphs
      is lexed one token per character, each the catalog token displaying it. */
  lemma TokenizeSingleChars(lookup: NameLookup, expr: string)
    requires forall k :: 0 <= k < |expr| ==> IsSingleCharToken(expr[k])
    ensures TokenizeWith(lookup, expr).Ok?
    ensures var ts := TokenizeWith(lookup, expr).value;
      |ts| == |expr|
      && forall k :: 0 <= k < |expr| ==> ts[k] in SINGLE_CHAR_TOKENS && ts[k].show == [expr[k]]
  {
    ScanSingleChars(lookup, expr, 0, []);
    var slots := Scan(lookup, expr, 0, []).value;
    assert slots[0..] == slots && expr[0..] == expr;
    assert DisplaysChars(slots, expr);
    var ts := Defined(slots).value;
    SingleCharTokensAreNotFunctions();
    forall k | 0 <= k < |ts| ensures !IsFunction(ts[k]) {
      assert slots[k].value in SINGLE_CHAR_TOKENS;
    }
    RetagWithoutFunctionsFrom(ts, 0);
  }

  /** No single-character token is a function token. */
  lemma SingleCharTokensAreNotFunctions()
    ensures forall t :: t in SINGLE_CHAR_TOKENS ==> !IsFunction(t)
  {
  }

  /** Each scan step consumes at least as many characters of the string as it
      emits entries, so the scan never emits more entries than characters. */
  lemma {:induction false} ScanLength(lookup: NameLookup, expr: string, i: nat, acc: seq<Slot>)
    requires |acc| <= i && |acc| <= |expr|
    ensures Scan(lookup, expr, i, acc).Ok? ==> |Scan(lookup, expr, i, acc).value| <= |expr|
    decreases |expr| - i
  {
    if i < |expr| {
      var step := ScanStep(lookup, expr, i);
      if step.Ok? {
        ScanLength(lookup, expr, step.value.1, acc + step.value.0);
      }
    }
  }

  /** The lexer emits at most one token per character of its input. */
  lemma TokenizeLength(lookup: NameLookup, expr: string)
    ensures TokenizeWith(lookup, expr).Ok? ==> |TokenizeWith(lookup, expr).value| <= |expr|
  {
    ScanLength(lookup, expr, 0, []);
  }

  /** The close parenthesis a function retags is the first CLOSE_PARENTHESIS
      met at depth 0, the depth counting OPEN_PARENTHESIS up and
      CLOSE_PARENTHESIS down; when there is none, nothing is retagged. */
  lemma MatchingCloseIsFirstAtDepthZero(ts: seq<Token>, j: nat, depth: nat)
    requires j <= |ts|
    ensures MatchingClose(ts, j, depth).Some? ==>
      depth + Balance(ts[j..MatchingClose(ts, j, depth).value]) == 0
    ensures forall m :: j <= m < |ts| && (MatchingClose(ts, j, depth).None? || m < MatchingClose(ts, j, depth).value) ==>
      depth + Balance(ts[j..m]) >= 0
      && (ts[m].kind == CLOSE_PARENTHESIS.kind ==> depth + Balance(ts[j..m]) > 0)
  {
    var r := MatchingClose(ts, j, depth);
    if r.Some? {
      MatchingCloseBalance(ts, j, depth, r.value);
    }
    forall m | j <= m < |ts| && (r.None? || m < r.value)
      ensures depth + Balance(ts[j..m]) >= 0
      ensures ts[m].kind == CLOSE_PARENTHESIS.kind ==> depth + Balance(ts[j..m]) > 0
    {
      OpenBeforeMatchingClose(ts, j, depth, m);
    }
  }

  lemma BalanceCons(ts: seq<Token>, j: nat, m: nat)
    requires j < m <= |ts|
    ensures Balance(ts[j..m]) == Delta(ts[j]) + Balance(ts[j + 1..m])
  {
    assert ts[j..m][1..] == ts[j + 1..m];
  }

  /** At the close parenthesis found, the parentheses read since `j` balance
      the starting counter. */
  lemma {:induction false} MatchingCloseBalance(ts: seq<Token>, j: nat, depth: nat, k: nat)
    requires j <= |ts| && MatchingClose(ts, j, depth) == Some(k)
    ensures j <= k && depth + Balance(ts[j..k]) == 0
    decreases |ts| - j
  {
    if k == j {
      assert Balance(ts[j..j]) == 0;
    } else {
      BalanceCons(ts, j, k);
      if ts[j].kind == OPEN_PARENTHESIS.kind {
        MatchingCloseBalance(ts, j + 1, depth + 1, k);
      } else if ts[j].kind == CLOSE_PARENTHESIS.kind {
        MatchingCloseBalance(ts, j + 1, depth - 1, k);
      } else {
        MatchingCloseBalance(ts, j + 1, depth, k);
      }
    }
  }

  /** Before the close parenthesis found (or anywhere when there is none) the
      counter stays non-negative, and is positive at every other close
      parenthesis. */
  lemma {:induction false} OpenBeforeMatchingClose(ts: seq<Token>, j: nat, depth: nat, m: nat)
    requires j <= m < |ts|
    requires MatchingClose(ts, j, depth).None? || m < MatchingClose(ts, j, depth).value
    ensures depth + Balance(ts[j..m]) >= 0
    ensures ts[m].kind == CLOSE_PARENTHESIS.kind ==> depth + Balance(ts[j..m]) > 0
    decreases m - j
  {
    if m == j {
      assert Balance(ts[j..j]) == 0;
    } else {
      BalanceCons(ts, j, m);
      if ts[j].kind == OPEN_PARENTHESIS.kind {
        OpenBeforeMatchingClose(ts, j + 1, depth + 1, m);
      } else if ts[j].kind == CLOSE_PARENTHESIS.kind {
        OpenBeforeMatchingClose(ts, j + 1, depth - 1, m);
      } else {
        OpenBeforeMatchingClose(ts, j + 1, depth, m);
      }
    }
  }

  lemma DefinedAllSome(slots: seq<Slot>, ts: seq<Token>)
    requires |slots| == |ts| && forall k :: 0 <= k < |ts| ==> slots[k] == Some(ts[k])
    ensures Defined(slots) == Ok(ts)
  {
    assert Defined(slots).value == ts;
  }

  /** `pi` is one token consuming both characters; a lone `p` is an unknown character. */
  lemma TokenizePi()
    ensures TokenizeSpec("2pi") == Ok([TWO, PI])
    ensures TokenizeSpec("p") == Err(UnknownCharacter)
  {
    var e := "2pi";
    assert ScanStep(ShortestFirst, e, 0) == Ok(([Some(TWO)], 1));
    assert ScanStep(ShortestFirst, e, 1) == Ok(([Some(PI)], 3));
    assert Scan(ShortestFirst, e, 3, [Some(TWO), Some(PI)]) == Ok([Some(TWO), Some(PI)]);
    assert Scan(ShortestFirst, e, 1, [Some(TWO)]) == Scan(ShortestFirst, e, 3, [Some(TWO)] + [Some(PI)]);
    assert Scan(ShortestFirst, e, 0, []) == Scan(ShortestFirst, e, 1, [] + [Some(TWO)]);
    DefinedAllSome([Some(TWO), Some(PI)], [TWO, PI]);
    assert RetagFrom([TWO, PI], 0) == [TWO, PI];
  }

  /** The character after a function name is skipped without being read: the
      scan resumes after the `]`. */
  lemma ScanSkipsAfterName()
    ensures ScanStep(ShortestFirst, "sin]x)", 0) == Ok(([Some(SIN), Some(FUNCTION_OPEN)], 4))
  {
    assert Substring("sin]x)", 0, 2) == "si" && Substring("sin]x)", 0, 3) == "sin";
  }

  /** A letter that starts no name within four characters is an unknown function. */
  lemma TokenizeRejectsUnknownName()
    ensures TokenizeSpec("q(x)") == Err(UnknownFunction)
  {
    var e := "q(x)";
    assert Substring(e, 0, 2) == "q(" && Substring(e, 0, 3) == "q(x" && Substring(e, 0, 4) == "q(x)";
    assert FindFunction(e, 0, 2) == Err(UnknownFunction);
    NameMissing(ShortestFirst, e, 0);
  }

  /** A tab is a character the scan leaves undefined, so tokenizing fails. */
  lemma TokenizeRejectsTab()
    ensures TokenizeSpec("2\t") == Err(UndefinedToken)
  {
    assert ScanStep(ShortestFirst, "2\t", 1) == Ok(([None], 2));
    assert Scan(ShortestFirst, "2\t", 2, [Some(TWO), None]) == Ok([Some(TWO), None]);
    assert Scan(ShortestFirst, "2\t", 1, [Some(TWO)]) == Scan(ShortestFirst, "2\t", 2, [Some(TWO)] + [None]);
    assert Scan(ShortestFirst, "2\t", 0, []) == Scan(ShortestFirst, "2\t", 1, [] + [Some(TWO)]);
  }

  /** As written, the shortest-first lookup stops at `sin`, `cos` and `tan`, so
      `sinh`, `cosh` and `tanh` are never lexed: the `h` is skipped as if it were
      the opening parenthesis, and the scan resumes at the argument's `(`. */
  lemma HyperbolicNamesShadowed()
    ensures FindFunction("sinh(0)", 0, 2) == Ok((SIN, 3))
    ensures ScanStep(ShortestFirst, "sinh(0)", 0) == Ok(([Some(SIN), Some(FUNCTION_OPEN)], 4))
  {
    assert Substring("sinh(0)", 0, 2) == "si" && Substring("sinh(0)", 0, 3) == "sin";
  }

  /** A name followed by `(` has no longer prefix that is a name. */
  lemma NoLongerName(k: string, rest: string, m: nat)
    requires k in FUNCTION_MAP && |k| < m <= 4
    ensures !NamesFunction(k + "(" + rest, 0, m)
  {
    var sub := Substring(k + "(" + rest, 0, m);
    assert sub[|k|] == '(';
    NonLetterExcludesName(sub, |k|);
  }

  /** Every function name starts with a letter that opens the name lookup. */
  lemma NameStartsLookup(k: string)
    requires k in FUNCTION_MAP
    ensures |k| > 0 && StartsFunctionName(k[0])
  {
    if k == "sin" {} else if k == "cos" {} else if k == "tan" {}
    else if k == "asin" {} else if k == "acos" {} else if k == "atan" {}
    else if k == "sinh" {} else if k == "cosh" {} else if k == "tanh" {}
    else if k == "sqrt" {} else if k == "cbrt" {}
    else if k == "log" {} else if k == "ln" {} else {
      assert k == "abs";
    }
  }

  /** With the longest-first lookup every name of the function map, followed by
      its opening parenthesis, is lexed as its own function token. */
  lemma LongestLookupReachesEveryName(k: string, rest: string)
    requires k in FUNCTION_MAP
    ensures FindFunctionLongest(k + "(" + rest, 0, 4) == Ok((FUNCTION_MAP[k], |k|))
    ensures ScanStep(LongestFirst, k + "(" + rest, 0)
         == Ok(([Some(FUNCTION_MAP[k]), Some(FUNCTION_OPEN)], |k| + 1))
  {
    var e := k + "(" + rest;
    LongestLookupFindsName(k, rest);
    NameStartsLookup(k);
    assert e[0] == k[0];
    NameFound(LongestFirst, e, 0, FUNCTION_MAP[k], |k|);
  }

  /** The longest-first lookup, on a name and its parenthesis, finds that name. */
  lemma LongestLookupFindsName(k: string, rest: string)
    requires k in FUNCTION_MAP
    ensures FindFunctionLongest(k + "(" + rest, 0, 4) == Ok((FUNCTION_MAP[k], |k|))
  {
    var e := k + "(" + rest;
    forall m | |k| < m <= 4 ensures !NamesFunction(e, 0, m) {
      NoLongerName(k, rest, m);
    }
    assert Substring(e, 0, |k|) == k;
    assert NamesFunction(e, 0, |k|);
    FindFunctionLongestFindsLongest(e, 0, 4);
    var r := FindFunctionLongest(e, 0, 4);
    assert r.value.1 == |k|;
  }
}

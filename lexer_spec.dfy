/** The tokenizer as a state machine over values: the meaning of each of
    the `Tokenizer` methods, and what its tokens are. */
module LexerSpec {
  import opened Text

  /** What the tokenizer is in the middle of reading (`TokenReadType`). */
  datatype ReadType = TokenMode | NameMode | StringMode

  datatype TokenType = NameToken | StringToken | LiteralToken

  datatype Token = Token(kind: TokenType, value: string)

  /** The fields of a `Tokenizer`: the input `source`, the cursor `idx`
      into it, the text of the token being read and the quote depth. */
  datatype LexState = LexState(source: string, idx: nat, buffer: string, quotes: nat, mode: ReadType)

  /** The state after one step, and the token it completed, if any. */
  datatype Stepped = Stepped(state: LexState, token: Option<Token>)

  /** `Tokenizer::new()`. */
  const Initial: LexState := LexState("", 0, "", 0, TokenMode)

  /** The input not yet looked at. */
  function Unconsumed(s: LexState): string
    requires s.idx <= |s.source|
  {
    s.source[s.idx..]
  }

  // ---------------------------------------------------------------------
  // Quote depth
  // ---------------------------------------------------------------------

  /** Number of opening quotes minus number of closing quotes in `s`. */
  function Depth(s: string): int {
    if s == [] then 0
    else Depth(s[..|s| - 1]) + (if s[|s| - 1] == LeftQuote then 1 else if s[|s| - 1] == RightQuote then -1 else 0)
  }

  /** The depth of the first `k` characters of `s`. */
  function PrefixDepth(s: string, k: nat): int
    requires k <= |s|
  {
    Depth(s[..k])
  }

  /** No prefix of `s` closes more quotes than it opens. */
  ghost predicate Balanced(s: string) {
    forall k :: 0 <= k <= |s| ==> PrefixDepth(s, k) >= 0
  }

  lemma DepthSnoc(s: string, c: char)
    ensures Depth(s + [c]) == Depth(s) + (if c == LeftQuote then 1 else if c == RightQuote then -1 else 0)
  {
    assert (s + [c])[..|s + [c]| - 1] == s;
  }

  lemma BalancedSnoc(s: string, c: char)
    requires Balanced(s) && Depth(s + [c]) >= 0
    ensures Balanced(s + [c])
  {
    forall k | 0 <= k <= |s + [c]| ensures PrefixDepth(s + [c], k) >= 0 {
      if k <= |s| {
        assert (s + [c])[..k] == s[..k];
        assert PrefixDepth(s, k) >= 0;
      } else {
        assert (s + [c])[..k] == s + [c];
      }
    }
  }

  // ---------------------------------------------------------------------
  // The invariant the tokenizer keeps
  // ---------------------------------------------------------------------

  /** Outside a token the buffer is empty and no quote is open; inside a
      name the buffer is a non-empty run of name characters; inside a
      quoted string at least one quote is open and the buffer holds the
      text after the opening quote, whose depth accounts for the others. */
  ghost predicate LexInv(s: LexState) {
    s.idx <= |s.source| &&
    match s.mode
    case TokenMode => s.buffer == [] && s.quotes == 0
    case NameMode => s.quotes == 0 && s.buffer != [] && AllNameChars(s.buffer)
    case StringMode => s.quotes >= 1 && Depth(s.buffer) == s.quotes - 1 && Balanced(s.buffer)
  }

  /** The input text that the token being read has consumed so far. */
  function Captured(s: LexState): string {
    match s.mode
    case TokenMode => []
    case NameMode => s.buffer
    case StringMode => [LeftQuote] + s.buffer
  }

  /** The input text a token was read from. */
  function Raw(t: Token): string {
    match t.kind
    case StringToken => [LeftQuote] + t.value + [RightQuote]
    case NameToken => t.value
    case LiteralToken => t.value
  }

  /** What each kind of token looks like. */
  ghost predicate WellFormed(t: Token) {
    match t.kind
    case LiteralToken => |t.value| == 1 && !IsNameChar(t.value[0]) && t.value[0] != LeftQuote
    case NameToken => t.value != [] && AllNameChars(t.value)
    case StringToken => Depth(t.value) == 0 && Balanced(t.value)
  }

  // ---------------------------------------------------------------------
  // Input operations
  // ---------------------------------------------------------------------

  /** `flush`: drop the consumed prefix of the input. */
  function Flush(s: LexState): (r: LexState)
    requires s.idx <= |s.source|
    ensures r.idx == 0 && Unconsumed(r) == Unconsumed(s)
    ensures r.buffer == s.buffer && r.quotes == s.quotes && r.mode == s.mode
  {
    s.(source := s.source[s.idx..], idx := 0)
  }

  /** `push`: append input after what is still unread. */
  function Push(s: LexState, st: string): (r: LexState)
    requires s.idx <= |s.source|
    ensures r.idx == 0 && Unconsumed(r) == Unconsumed(s) + st
    ensures r.buffer == s.buffer && r.quotes == s.quotes && r.mode == s.mode
    ensures LexInv(s) ==> LexInv(r)
  {
    var f := Flush(s);
    f.(source := f.source + st)
  }

  /** `unshift`: put text in front of what is still unread, so that it is
      read next. */
  function Unshift(s: LexState, st: string): (r: LexState)
    requires s.idx <= |s.source|
    ensures r.idx == 0 && Unconsumed(r) == st + Unconsumed(s)
    ensures r.buffer == s.buffer && r.quotes == s.quotes && r.mode == s.mode
    ensures LexInv(s) ==> LexInv(r)
  {
    var f := Flush(s);
    f.(source := st + f.source)
  }

  /** `peek_char`: the next unread character. */
  function Peek(s: LexState): (r: Option<char>)
    requires s.idx <= |s.source|
    ensures r.Some? <==> Unconsumed(s) != []
    ensures r.Some? ==> r.value == Unconsumed(s)[0]
  {
    if |s.source| == 0 then None
    else if s.idx < |s.source| then Some(s.source[s.idx]) else None
  }

  // ---------------------------------------------------------------------
  // Reading
  // ---------------------------------------------------------------------

  /** `get_token`: hand out the buffer as a token and go back to `TOKEN`. */
  function GetToken(s: LexState, kind: TokenType): (r: Stepped)
    ensures r.token.Some? && r.token.value.kind == kind && r.token.value.value == s.buffer
    ensures r.state.mode == TokenMode && r.state.buffer == []
    ensures r.state.source == s.source && r.state.idx == s.idx && r.state.quotes == s.quotes
  {
    Stepped(s.(buffer := [], mode := TokenMode), Some(Token(kind, s.buffer)))
  }

  /** `read_token`: the character `c` under the cursor starts a new token. */
  function ReadTokenStep(s: LexState, c: char): Stepped {
    var b := s.buffer + [c];
    if IsNameChar(c) then Stepped(s.(buffer := b, mode := NameMode), None)
    else if c == LeftQuote then Stepped(s.(buffer := [], quotes := s.quotes + 1, mode := StringMode), None)
    else GetToken(s.(buffer := b, idx := s.idx + 1), LiteralToken)
  }

  /** `read_name`: `c` continues the name, or ends it without being consumed. */
  function ReadNameStep(s: LexState, c: char): Stepped {
    if !IsNameChar(c) then GetToken(s, NameToken)
    else Stepped(s.(buffer := s.buffer + [c]), None)
  }

  /** `read_string`: `c` is inside a quoted string; the closing quote that
      brings the depth to zero is consumed and dropped from the token. */
  function ReadStringStep(s: LexState, c: char): Stepped
    requires c == RightQuote ==> s.quotes >= 1
  {
    var b := s.buffer + [c];
    if c == LeftQuote then Stepped(s.(buffer := b, quotes := s.quotes + 1), None)
    else if c == RightQuote then
      if s.quotes - 1 == 0 then
        GetToken(s.(buffer := b[..|b| - 1], quotes := 0, idx := s.idx + 1), StringToken)
      else Stepped(s.(buffer := b, quotes := s.quotes - 1), None)
    else Stepped(s.(buffer := b), None)
  }

  /** `read_next`: one character, interpreted according to the mode. */
  function ReadNext(s: LexState, c: char): Stepped
    requires s.mode == StringMode && c == RightQuote ==> s.quotes >= 1
  {
    match s.mode
    case TokenMode => ReadTokenStep(s, c)
    case NameMode => ReadNameStep(s, c)
    case StringMode => ReadStringStep(s, c)
  }

  /** A step that completes no token leaves the cursor for the caller to
      advance, keeps the invariant and adds `c` to the captured text. */
  ghost predicate Continues(s: LexState, c: char, t: LexState)
    requires s.idx < |s.source|
  {
    t.source == s.source && t.idx == s.idx && t.mode != TokenMode &&
    LexInv(t.(idx := s.idx + 1)) && Captured(t) == Captured(s) + [c]
  }

  /** A step that completes a token consumes at most the character under the
      cursor, keeps the invariant, and the token is well formed and was read
      from the captured text and the characters consumed. A literal is read
      from scratch and consumes its character; a name consumes nothing and
      stops in front of a character that is not a name character. */
  ghost predicate Completes(s: LexState, t: LexState, tok: Token)
    requires s.idx < |s.source|
  {
    t.source == s.source && s.idx <= t.idx <= s.idx + 1 && LexInv(t) && t.mode == TokenMode &&
    Raw(tok) == Captured(s) + s.source[s.idx..t.idx] && WellFormed(tok) &&
    (tok.kind == LiteralToken ==> s.mode == TokenMode && t.idx == s.idx + 1) &&
    (tok.kind == NameToken ==> t.idx == s.idx && !IsNameChar(s.source[s.idx]))
  }

  ghost predicate StepOk(s: LexState, r: Stepped)
    requires s.idx < |s.source|
  {
    match r.token
    case None => Continues(s, s.source[s.idx], r.state)
    case Some(tok) => Completes(s, r.state, tok)
  }

  lemma ReadTokenStepOk(s: LexState)
    requires LexInv(s) && s.idx < |s.source| && s.mode == TokenMode
    ensures StepOk(s, ReadTokenStep(s, s.source[s.idx]))
  {
    var c := s.source[s.idx];
    if c == LeftQuote {
      var e: string := [];
      assert PrefixDepth(e, 0) == 0;
      assert Balanced(e);
    } else if !IsNameChar(c) {
      assert s.source[s.idx..s.idx + 1] == [c];
    }
  }

  lemma ReadNameStepOk(s: LexState)
    requires LexInv(s) && s.idx < |s.source| && s.mode == NameMode
    ensures StepOk(s, ReadNameStep(s, s.source[s.idx]))
  {
    var c := s.source[s.idx];
    if IsNameChar(c) {
      assert AllNameChars(s.buffer + [c]);
    } else {
      assert s.source[s.idx..s.idx] == [];
    }
  }

  lemma ReadStringStepOk(s: LexState)
    requires LexInv(s) && s.idx < |s.source| && s.mode == StringMode
    ensures StepOk(s, ReadStringStep(s, s.source[s.idx]))
  {
    var c := s.source[s.idx];
    var b := s.buffer + [c];
    DepthSnoc(s.buffer, c);
    assert b[..|b| - 1] == s.buffer;
    if c == RightQuote && s.quotes == 1 {
      assert s.source[s.idx..s.idx + 1] == [c];
    } else {
      BalancedSnoc(s.buffer, c);
    }
  }

  /** Every step of `read_next` from a valid state is of one of the two kinds. */
  lemma ReadNextStep(s: LexState)
    requires LexInv(s) && s.idx < |s.source|
    ensures StepOk(s, ReadNext(s, s.source[s.idx]))
  {
    match s.mode {
      case TokenMode => ReadTokenStepOk(s);
      case NameMode => ReadNameStepOk(s);
      case StringMode => ReadStringStepOk(s);
    }
  }

  /** `read`: characters are fed to `read_next` until a token is complete or
      the input runs out; the dead end-of-input branch of the source is left
      out. */
  function Read(s: LexState): (r: Stepped)
    requires LexInv(s)
    ensures LexInv(r.state)
    decreases |s.source| - s.idx
  {
    if s.idx < |s.source| then
      ReadNextStep(s);
      var n := ReadNext(s, s.source[s.idx]);
      if n.token.Some? then n else Read(n.state.(idx := n.state.idx + 1))
    else Stepped(s, None)
  }

  /** One character of `read`: the step either completes the token `read`
      returns, or `read` goes on after it with the cursor advanced. */
  lemma ReadUnfold(s: LexState)
    requires LexInv(s) && s.idx < |s.source|
    ensures var n := ReadNext(s, s.source[s.idx]);
      n.state.source == s.source &&
      (n.token.Some? ==> Read(s) == n) &&
      (n.token.None? ==> n.state.idx == s.idx && LexInv(n.state.(idx := s.idx + 1)) &&
                         Read(s) == Read(n.state.(idx := s.idx + 1)))
  {
    var n := ReadNext(s, s.source[s.idx]);
    assert StepOk(s, n) by { ReadNextStep(s); }
    if n.token.None? {
      assert Continues(s, s.source[s.idx], n.state);
    } else {
      assert Completes(s, n.state, n.token.value);
    }
  }

  /** `read` returned no token: every unread character has gone into the
      captured text and the cursor is at the end of the input. */
  ghost predicate Exhausted(s: LexState, t: LexState)
    requires s.idx <= |s.source|
  {
    t.source == s.source && t.idx == |s.source| && Captured(t) == Captured(s) + Unconsumed(s)
  }

  /** `read` returned `tok`: it is well formed and was read from exactly the
      captured text and the characters consumed, and the tokenizer is back in
      `TOKEN` mode. A literal is the single character under the cursor, read
      from scratch; a name stops in front of a character it does not consume. */
  ghost predicate Emitted(s: LexState, t: LexState, tok: Token)
    requires s.idx <= |s.source|
  {
    t.source == s.source && s.idx <= t.idx <= |s.source| && t.mode == TokenMode &&
    Raw(tok) == Captured(s) + s.source[s.idx..t.idx] && WellFormed(tok) &&
    (tok.kind == LiteralToken ==>
       s.mode == TokenMode && s.idx < |s.source| && t.idx == s.idx + 1 && tok.value == [s.source[s.idx]]) &&
    (tok.kind == NameToken ==> t.idx < |s.source| && !IsNameChar(s.source[t.idx]))
  }

  ghost predicate ReadOk(s: LexState, r: Stepped)
    requires s.idx <= |s.source|
  {
    match r.token
    case None => Exhausted(s, r.state)
    case Some(tok) => Emitted(s, r.state, tok)
  }

  /** A completed step is a correct result of `read`. */
  lemma CompletesIsReadOk(s: LexState, r: Stepped)
    requires s.idx < |s.source| && r.token.Some? && Completes(s, r.state, r.token.value)
    ensures ReadOk(s, r)
  {
    if r.token.value.kind == LiteralToken {
      assert s.source[s.idx..r.state.idx] == [s.source[s.idx]];
    }
  }

  /** The input running out after a step that completed nothing. */
  lemma ContinuesExhausted(s: LexState, t: LexState, u: LexState)
    requires s.idx < |s.source| && Continues(s, s.source[s.idx], t)
    requires Exhausted(t.(idx := s.idx + 1), u)
    ensures Exhausted(s, u)
  {
    var c := s.source[s.idx];
    var x, y := Captured(s), s.source[s.idx + 1..];
    assert Captured(u) == (x + [c]) + y;
    assert s.source[s.idx..] == [c] + y;
    assert (x + [c]) + y == x + ([c] + y);
  }

  /** A token emitted after a step that completed nothing. */
  lemma ContinuesEmitted(s: LexState, t: LexState, u: LexState, tok: Token)
    requires s.idx < |s.source| && Continues(s, s.source[s.idx], t)
    requires Emitted(t.(idx := s.idx + 1), u, tok)
    ensures Emitted(s, u, tok)
  {
    var c := s.source[s.idx];
    assert Captured(t.(idx := s.idx + 1)) == Captured(s) + [c];
    assert s.source[s.idx..u.idx] == [c] + s.source[s.idx + 1..u.idx];
    assert tok.kind != LiteralToken by { assert t.mode != TokenMode; }
  }

  /** A correct result of `read` after a step that completed nothing is
      correct for the state before the step. */
  lemma ContinuesThenReadOk(s: LexState, t: LexState, r: Stepped)
    requires s.idx < |s.source| && Continues(s, s.source[s.idx], t)
    requires ReadOk(t.(idx := s.idx + 1), r)
    ensures ReadOk(s, r)
  {
    match r.token {
      case None => ContinuesExhausted(s, t, r.state);
      case Some(tok) => ContinuesEmitted(s, t, r.state, tok);
    }
  }

  /** What `read` does, for every valid state: it returns no token only once
      the whole input is consumed, and a token it returns is one the input
      spells out. */
  lemma {:induction false} ReadSpec(s: LexState)
    requires LexInv(s)
    ensures ReadOk(s, Read(s))
    decreases |s.source| - s.idx
  {
    if s.idx < |s.source| {
      ReadNextStep(s);
      var n := ReadNext(s, s.source[s.idx]);
      if n.token.None? {
        var s' := n.state.(idx := n.state.idx + 1);
        ReadSpec(s');
        ContinuesThenReadOk(s, n.state, Read(s'));
      } else {
        CompletesIsReadOk(s, n);
      }
    } else {
      assert s.source[s.idx..] == [];
    }
  }

  /** A string token read from scratch is the text between its outer quotes. */
  lemma StringTokenStrips(s: LexState, t: LexState, tok: Token)
    requires s.idx <= |s.source| && s.mode == TokenMode
    requires Emitted(s, t, tok) && tok.kind == StringToken
    ensures s.idx + 2 <= t.idx <= |s.source|
    ensures s.source[s.idx] == LeftQuote && s.source[t.idx - 1] == RightQuote
    ensures tok.value == s.source[s.idx + 1..t.idx - 1]
  {
    var seen := s.source[s.idx..t.idx];
    assert seen == [LeftQuote] + tok.value + [RightQuote];
    assert seen[0] == s.source[s.idx] && seen[|seen| - 1] == s.source[t.idx - 1];
    assert seen[1..|seen| - 1] == tok.value;
  }

  /** Between tokens, a character that starts neither a name nor a string is
      read at once as a one-character literal. */
  lemma ReadLiteral(s: LexState)
    requires LexInv(s) && s.mode == TokenMode && s.idx < |s.source|
    requires !IsNameChar(s.source[s.idx]) && s.source[s.idx] != LeftQuote
    ensures Read(s) == Stepped(s.(idx := s.idx + 1), Some(Token(LiteralToken, [s.source[s.idx]])))
  {
    var c := s.source[s.idx];
    assert s.buffer + [c] == [c];
    assert ReadNext(s, c) == Stepped(s.(idx := s.idx + 1), Some(Token(LiteralToken, [c])));
  }

  /** `read` returns no token only at the end of the input. */
  lemma ReadNoneAtEnd(s: LexState)
    requires LexInv(s) && Read(s).token.None?
    ensures Unconsumed(Read(s).state) == []
  {
    ReadSpec(s);
  }

  /** Inside a name, the rest of the run of name characters is read and the
      name is handed out in front of the first other character. */
  lemma {:induction false} ReadNameRest(s: LexState, j: nat)
    requires LexInv(s) && s.mode == NameMode && s.idx + j < |s.source|
    requires forall i :: s.idx <= i < s.idx + j ==> IsNameChar(s.source[i])
    requires !IsNameChar(s.source[s.idx + j])
    ensures Read(s) == Stepped(s.(idx := s.idx + j, buffer := [], mode := TokenMode),
                               Some(Token(NameToken, s.buffer + s.source[s.idx..s.idx + j])))
    decreases j
  {
    var c := s.source[s.idx];
    if j == 0 {
      assert s.buffer + s.source[s.idx..s.idx] == s.buffer;
      assert ReadNext(s, c) == GetToken(s, NameToken);
    } else {
      var s' := s.(buffer := s.buffer + [c], idx := s.idx + 1);
      assert AllNameChars(s.buffer + [c]);
      assert Read(s) == Read(s');
      ReadNameRest(s', j - 1);
      assert s.source[s.idx..s.idx + j] == [c] + s.source[s.idx + 1..s.idx + j];
      assert s.buffer + s.source[s.idx..s.idx + j] == s'.buffer + s'.source[s'.idx..s'.idx + (j - 1)];
    }
  }

  /** Between tokens, a name character starts a name. */
  lemma ReadNameStart(s: LexState)
    requires LexInv(s) && s.mode == TokenMode && s.idx < |s.source| && IsNameChar(s.source[s.idx])
    ensures LexInv(s.(buffer := [s.source[s.idx]], mode := NameMode, idx := s.idx + 1))
    ensures Read(s) == Read(s.(buffer := [s.source[s.idx]], mode := NameMode, idx := s.idx + 1))
  {
    var c := s.source[s.idx];
    assert s.buffer + [c] == [c];
    assert ReadNext(s, c) == Stepped(s.(buffer := [c], mode := NameMode), None);
  }

  /** The characters after the first of a spelled name are name
      characters, and together with the first they spell it again. */
  lemma NameSpelled(src: string, a: nat, w: string)
    requires w != [] && AllNameChars(w) && a + |w| <= |src|
    requires forall i :: 0 <= i < |w| ==> src[a + i] == w[i]
    ensures forall i :: a + 1 <= i < a + |w| ==> IsNameChar(src[i])
    ensures [w[0]] + src[a + 1..a + |w|] == w
  {
    forall i | a + 1 <= i < a + |w| ensures IsNameChar(src[i]) {
      assert src[i] == w[i - a];
    }
    var v := [w[0]] + src[a + 1..a + |w|];
    forall i | 0 <= i < |w| ensures v[i] == w[i] {
      if i > 0 { assert v[i] == src[a + i]; }
    }
  }

  /** Between tokens, a run of name characters spelling `w` is read as one
      name token, the longest there is; the character after it is not
      consumed. */
  lemma ReadName(s: LexState, w: string)
    requires LexInv(s) && s.mode == TokenMode
    requires w != [] && AllNameChars(w) && s.idx + |w| < |s.source|
    requires forall i :: 0 <= i < |w| ==> s.source[s.idx + i] == w[i]
    requires !IsNameChar(s.source[s.idx + |w|])
    ensures Read(s) == Stepped(s.(idx := s.idx + |w|), Some(Token(NameToken, w)))
  {
    var k := |w|;
    assert s.source[s.idx] == w[0];
    NameSpelled(s.source, s.idx, w);
    ReadNameStart(s);
    var s' := s.(buffer := [w[0]], mode := NameMode, idx := s.idx + 1);
    ReadNameRest(s', k - 1);
    assert s'.(idx := s'.idx + (k - 1), buffer := [], mode := TokenMode) == s.(idx := s.idx + k);
  }

  /** Inside a string with one quote open, text without quotes is taken
      into the buffer up to the closing quote, which ends the token. */
  lemma {:induction false} ReadStringRest(s: LexState, j: nat)
    requires LexInv(s) && s.mode == StringMode && s.quotes == 1 && s.idx + j < |s.source|
    requires forall i :: s.idx <= i < s.idx + j ==> s.source[i] != LeftQuote && s.source[i] != RightQuote
    requires s.source[s.idx + j] == RightQuote
    ensures Read(s) == Stepped(s.(idx := s.idx + j + 1, buffer := [], quotes := 0, mode := TokenMode),
                               Some(Token(StringToken, s.buffer + s.source[s.idx..s.idx + j])))
    decreases j
  {
    var c := s.source[s.idx];
    var b := s.buffer + [c];
    assert b[..|b| - 1] == s.buffer;
    if j == 0 {
      assert s.buffer + s.source[s.idx..s.idx] == s.buffer;
      assert ReadNext(s, c) == GetToken(s.(buffer := s.buffer, quotes := 0, idx := s.idx + 1), StringToken);
    } else {
      DepthSnoc(s.buffer, c);
      BalancedSnoc(s.buffer, c);
      var s' := s.(buffer := b, idx := s.idx + 1);
      assert Read(s) == Read(s');
      ReadStringRest(s', j - 1);
      assert s.source[s.idx..s.idx + j] == [c] + s.source[s.idx + 1..s.idx + j];
      assert s.buffer + s.source[s.idx..s.idx + j] == s'.buffer + s'.source[s'.idx..s'.idx + (j - 1)];
    }
  }

  /** Between tokens, a quoted string whose quotes are at `idx` and
      `idx + j + 1`, with no quotes between them, is read as one string
      token holding the text between them. */
  lemma ReadQuoted(s: LexState, j: nat)
    requires LexInv(s) && s.mode == TokenMode && s.idx + j + 1 < |s.source|
    requires s.source[s.idx] == LeftQuote
    requires forall i :: s.idx < i <= s.idx + j ==> s.source[i] != LeftQuote && s.source[i] != RightQuote
    requires s.source[s.idx + j + 1] == RightQuote
    ensures Read(s) == Stepped(s.(idx := s.idx + j + 2), Some(Token(StringToken, s.source[s.idx + 1..s.idx + j + 1])))
  {
    var s' := s.(buffer := [], quotes := 1, mode := StringMode, idx := s.idx + 1);
    var e: string := [];
    assert PrefixDepth(e, 0) == 0;
    assert Balanced(e);
    assert ReadNext(s, LeftQuote) == Stepped(s'.(idx := s.idx), None);
    assert Read(s) == Read(s');
    ReadStringRest(s', j);
    assert s'.buffer + s'.source[s'.idx..s'.idx + j] == s.source[s.idx + 1..s.idx + j + 1];
    assert s'.(idx := s'.idx + j + 1, buffer := [], quotes := 0, mode := TokenMode) == s.(idx := s.idx + j + 2);
  }

  /** The same, for a string spelling `w` between its quotes. */
  lemma ReadFlatString(s: LexState, w: string)
    requires LexInv(s) && s.mode == TokenMode && s.idx + |w| + 1 < |s.source|
    requires s.source[s.idx] == LeftQuote
    requires forall i :: 0 <= i < |w| ==> s.source[s.idx + 1 + i] == w[i]
    requires forall i :: 0 <= i < |w| ==> w[i] != LeftQuote && w[i] != RightQuote
    requires s.source[s.idx + |w| + 1] == RightQuote
    ensures Read(s) == Stepped(s.(idx := s.idx + |w| + 2), Some(Token(StringToken, w)))
  {
    forall i | s.idx < i <= s.idx + |w| ensures s.source[i] != LeftQuote && s.source[i] != RightQuote {
      assert s.source[i] == w[i - s.idx - 1];
    }
    ReadQuoted(s, |w|);
    assert s.source[s.idx + 1..s.idx + |w| + 1] == w;
  }
}

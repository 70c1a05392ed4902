/** What one step of the controller does to its state, case by case, and
    what every run of `write` preserves. */
module ExpansionFacts {
  import opened Text
  import opened Substitution
  import opened LexerSpec
  import opened Expansion

  /** `after` is `before` with `text` added to its last argument; nothing
      else of the call changes. */
  ghost predicate Appended(before: Macro, after: Macro, text: string) {
    after.name == before.name && after.value == before.value && after.parens == before.parens &&
    |after.args| == |before.args| >= 1 &&
    after.args[..|after.args| - 1] == before.args[..|before.args| - 1] &&
    after.args[|after.args| - 1] == before.args[|before.args| - 1] + text
  }

  /** Only the top frame of the stack differs. */
  ghost predicate SameBelow(before: seq<Macro>, after: seq<Macro>) {
    before != [] && after != [] && |after| == |before| &&
    after[..|after| - 1] == before[..|before| - 1]
  }

  lemma AppendArgFacts(st: Machine, text: string)
    requires MInv(st) && st.stack != []
    ensures var r := AppendArg(st, text);
      SameBelow(st.stack, r.stack) && Appended(Top(st.stack), Top(r.stack), text) &&
      r == st.(stack := r.stack)
  {
    assert FrameOk(st.stack[|st.stack| - 1]);
  }

  // ---------------------------------------------------------------------
  // process_token
  // ---------------------------------------------------------------------

  /** White space right after the `(` or a `,` of a call changes nothing. */
  lemma SkipDropsWhitespace(st: Machine, t: Token, rank: Rank)
    requires MInv(st) && TokenSafe(st, t) && Skipped(st, t)
    ensures ProcessToken(st, t, rank) == st
  {
  }

  /** Once a token is not skipped, skipping is over, unless the token is a
      comma that starts another argument of the current call. */
  lemma SkipEnds(st: Machine, t: Token, rank: Rank)
    requires MInv(st) && TokenSafe(st, t) && !Skipped(st, t)
    ensures ProcessToken(st, t, rank).skip <==>
      st.stack != [] && t == Token(LiteralToken, ",") && Top(st.stack).parens == 0
  {
  }

  /** A macro name, inside a call or not, becomes the pending macro with
      its template (empty for a `define` not in the table) and only its name
      as argument; nothing is output. */
  lemma NameBecomesPending(st: Machine, t: Token, rank: Rank)
    requires MInv(st) && TokenSafe(st, t) && IsMacroName(st, t)
    ensures var r := ProcessToken(st, t, rank);
      r.pending.Some? && r.pending.value.name == t.value && r.pending.value.args == [t.value] &&
      r.pending.value.parens == 0 &&
      r.pending.value.value == (if t.value in st.macros then st.macros[t.value] else "") &&
      r.lex == st.lex && r.macros == st.macros && r.stack == st.stack && r.output == st.output && !r.skip
  {
  }

  /** Outside every call, a token that is not a macro name is output as it
      is; for a quoted string that is the text between the outer quotes. */
  lemma OutputWhenIdle(st: Machine, t: Token, rank: Rank)
    requires MInv(st) && TokenSafe(st, t) && !Skipped(st, t)
    requires st.stack == [] && !IsMacroName(st, t)
    ensures ProcessToken(st, t, rank) == st.(skip := false, output := st.output + t.value)
  {
  }

  /** Inside a call, a `(` is kept in the argument and opens one more level
      of parentheses. */
  lemma OpenParenNests(st: Machine, rank: Rank)
    requires MInv(st) && st.stack != []
    ensures var r := ProcessToken(st, Token(LiteralToken, "("), rank);
      var m, m' := Top(st.stack), Top(r.stack);
      SameBelow(st.stack, r.stack) &&
      Appended(m.(parens := m.parens + 1), m', "(") &&
      r.lex == st.lex && r.macros == st.macros && r.pending == st.pending &&
      r.output == st.output && !r.skip
  {
    var t, m := Token(LiteralToken, "("), Top(st.stack);
    assert !IsWhitespace(t.value[0]);
    var st1 := st.(skip := false);
    var p := ProcessLiteralInMacro(st1, t, rank);
    assert p == (st1.(stack := SetTop(st.stack, m.(parens := m.parens + 1))), false);
    assert ProcessToken(st, t, rank) == AppendArg(p.0, "(");
    AppendArgFacts(p.0, "(");
  }

  /** Inside a call, a `)` that closes an inner parenthesis is kept in the
      argument and closes that level. */
  lemma CloseParenNested(st: Machine, rank: Rank)
    requires MInv(st) && st.stack != [] && Top(st.stack).parens > 0
    ensures var r := ProcessToken(st, Token(LiteralToken, ")"), rank);
      var m, m' := Top(st.stack), Top(r.stack);
      SameBelow(st.stack, r.stack) &&
      Appended(m.(parens := m.parens - 1), m', ")") &&
      r.lex == st.lex && r.macros == st.macros && r.pending == st.pending &&
      r.output == st.output && !r.skip
  {
    var t, m := Token(LiteralToken, ")"), Top(st.stack);
    assert !IsWhitespace(t.value[0]);
    var st1 := st.(skip := false);
    var p := ProcessLiteralInMacro(st1, t, rank);
    assert p == (st1.(stack := SetTop(st.stack, m.(parens := m.parens - 1))), false);
    assert ProcessToken(st, t, rank) == AppendArg(p.0, ")");
    AppendArgFacts(p.0, ")");
  }

  /** A `,` at the outer level of a call starts a new, empty argument and
      white space after it is skipped. */
  lemma CommaSplits(st: Machine, rank: Rank)
    requires MInv(st) && st.stack != [] && Top(st.stack).parens == 0
    ensures var r := ProcessToken(st, Token(LiteralToken, ","), rank);
      var m := Top(st.stack);
      SameBelow(st.stack, r.stack) && Top(r.stack) == m.(args := m.args + [""]) &&
      r.lex == st.lex && r.macros == st.macros && r.pending == st.pending &&
      r.output == st.output && r.skip
  {
  }

  /** The `)` that closes a call pops it, calls it and puts the expansion in
      front of the unread input, so it is read again. */
  lemma CloseParenCalls(st: Machine, rank: Rank)
    requires MInv(st) && st.stack != [] && Top(st.stack).parens == 0 && CallSafe(Top(st.stack))
    ensures var r := ProcessToken(st, Token(LiteralToken, ")"), rank);
      var c := CallMacro(st.macros, Top(st.stack), rank);
      r.stack == st.stack[..|st.stack| - 1] && r.macros == c.macros &&
      Unconsumed(r.lex) == c.text + Unconsumed(st.lex) &&
      r.pending == st.pending && r.output == st.output && !r.skip
  {
    var t, m := Token(LiteralToken, ")"), Top(st.stack);
    assert !IsWhitespace(t.value[0]);
    assert TokenSafe(st, t);
    var st1 := st.(skip := false);
    var popped := st1.(stack := st.stack[..|st.stack| - 1]);
    var c := CallMacro(popped.macros, m, rank);
    assert ProcessLiteralInMacro(st1, t, rank) == (popped.(lex := Unshift(popped.lex, c.text), macros := c.macros), true);
  }

  /** Inside a call, every other token that is not a macro name is added to
      the current argument: names, quoted strings (without their outer
      quotes), other literals, and commas inside parentheses. */
  lemma OtherTokenAppends(st: Machine, t: Token, rank: Rank)
    requires MInv(st) && !Skipped(st, t) && st.stack != [] && !IsMacroName(st, t)
    requires t.kind == LiteralToken ==>
      t.value != "(" && t.value != ")" && (t.value == "," ==> Top(st.stack).parens > 0)
    ensures TokenSafe(st, t)
    ensures var r := ProcessToken(st, t, rank);
      SameBelow(st.stack, r.stack) && Appended(Top(st.stack), Top(r.stack), t.value) &&
      r.lex == st.lex && r.macros == st.macros && r.pending == st.pending &&
      r.output == st.output && !r.skip
  {
  }

  // ---------------------------------------------------------------------
  // process_pending_macro
  // ---------------------------------------------------------------------

  /** With no pending macro, or no input to look at, nothing happens. */
  lemma PendingWaits(st: Machine, rank: Rank)
    requires MInv(st) && PendingSafe(st)
    requires st.pending.None? || Unconsumed(st.lex) == []
    ensures ProcessPendingMacro(st, rank) == st
  {
  }

  /** A pending macro followed by `(` becomes a call whose arguments are
      collected: the `(` is consumed, the frame has one empty argument and
      leading white space is skipped. */
  lemma PendingOpensFrame(st: Machine, rank: Rank)
    requires MInv(st) && st.pending.Some? && st.lex.mode == TokenMode
    requires Unconsumed(st.lex) != [] && Unconsumed(st.lex)[0] == '('
    ensures PendingSafe(st)
    ensures var r := ProcessPendingMacro(st, rank);
      var m := st.pending.value;
      r.stack == st.stack + [Macro(m.name, m.value, [m.name, ""], 0)] &&
      Unconsumed(r.lex) == Unconsumed(st.lex)[1..] && r.lex.mode == TokenMode &&
      r.pending.None? && r.skip && r.macros == st.macros && r.output == st.output
  {
    var m := st.pending.value;
    assert st.lex.source[st.lex.idx] == '(';
    ReadLiteral(st.lex);
    var lex' := st.lex.(idx := st.lex.idx + 1);
    assert Unconsumed(lex') == Unconsumed(st.lex)[1..];
    assert m.args + [""] == [m.name, ""];
    assert ProcessPendingMacro(st, rank) == StartMacroArgs(st);
    assert StartMacroArgs(st) ==
      st.(lex := lex', stack := st.stack + [m.(args := [m.name, ""])], pending := None, skip := true);
  }

  /** A pending macro followed by anything else is called without arguments
      and its expansion is put in front of the unread input. */
  lemma PendingCallsNow(st: Machine, rank: Rank)
    requires MInv(st) && PendingSafe(st) && st.pending.Some?
    requires Unconsumed(st.lex) != [] && Unconsumed(st.lex)[0] != '('
    ensures var r := ProcessPendingMacro(st, rank);
      var c := CallMacro(st.macros, st.pending.value, rank);
      Unconsumed(r.lex) == c.text + Unconsumed(st.lex) && r.macros == c.macros &&
      r.pending.None? && r.stack == st.stack && r.skip == st.skip && r.output == st.output
  {
  }

  // ---------------------------------------------------------------------
  // What a run preserves
  // ---------------------------------------------------------------------

  /** The output only grows and a defined macro stays defined. */
  ghost predicate Grows(st: Machine, r: Machine) {
    st.output <= r.output && st.macros.Keys <= r.macros.Keys
  }

  lemma ProcessTokenGrows(st: Machine, t: Token, rank: Rank)
    requires MInv(st) && TokenSafe(st, t)
    ensures Grows(st, ProcessToken(st, t, rank))
  {
  }

  lemma ProcessPendingGrows(st: Machine, rank: Rank)
    requires MInv(st) && PendingSafe(st)
    ensures Grows(st, ProcessPendingMacro(st, rank))
  {
  }

  lemma StepGrows(st: Machine, t: Token, rank: Rank)
    requires MInv(st)
    ensures Grows(st, Step(st, t, rank).state)
  {
    if TokenSafe(st, t) {
      var st1 := ProcessToken(st, t, rank);
      ProcessTokenGrows(st, t, rank);
      if PendingSafe(st1) {
        ProcessPendingGrows(st1, rank);
        GrowsTrans(st, st1, ProcessPendingMacro(st1, rank));
      }
    }
  }

  lemma {:induction false} LoopGrows(st: Machine, tok: Option<Token>, fuel: nat, rank: Rank)
    requires MInv(st)
    ensures Grows(st, Loop(st, tok, fuel, rank).state)
    decreases fuel
  {
    match tok
    case None =>
    case Some(t) =>
      if fuel > 0 {
        StepGrows(st, t, rank);
        var o := Step(st, t, rank);
        if o.Next? {
          var n := Read(o.state.lex);
          var st1 := o.state.(lex := n.state);
          LoopGrows(st1, n.token, fuel - 1, rank);
          GrowsTrans(st, o.state, Loop(st1, n.token, fuel - 1, rank).state);
        }
      }
  }

  lemma GrowsTrans(a: Machine, b: Machine, c: Machine)
    requires Grows(a, b) && Grows(b, c)
    ensures Grows(a, c)
  {
  }

  /** `write` never takes back output or forgets a macro. */
  lemma WriteGrows(st: Machine, chunk: string, fuel: nat, rank: Rank)
    requires MInv(st)
    ensures Grows(st, Write(st, chunk, fuel, rank).state)
  {
    var st1 := st.(lex := Push(st.lex, chunk));
    if PendingSafe(st1) {
      var st2 := ProcessPendingMacro(st1, rank);
      ProcessPendingGrows(st1, rank);
      var n := Read(st2.lex);
      LoopGrows(st2.(lex := n.state), n.token, fuel, rank);
    }
  }

  /** A run that finishes after reading a token processed that token and
      went on reading; if nothing was left to read, the input is used up. */
  lemma FinishedNext(st: Machine, t: Token, fuel: nat, rank: Rank)
    requires MInv(st) && Loop(st, Some(t), fuel, rank).status == Finished
    ensures fuel > 0 && Step(st, t, rank).Next?
    ensures var o := Step(st, t, rank).state; var n := Read(o.lex);
      Loop(st, Some(t), fuel, rank) == Loop(o.(lex := n.state), n.token, fuel - 1, rank) &&
      (n.token.None? ==> Unconsumed(n.state) == [])
  {
    var o := Step(st, t, rank).state;
    if Read(o.lex).token.None? {
      ReadNoneAtEnd(o.lex);
    }
  }

  /** A run of the loop that finishes has consumed its whole input. */
  lemma {:induction false} ResumeConsumesAll(st: Machine, fuel: nat, rank: Rank)
    requires MInv(st) && Resume(st, fuel, rank).status == Finished
    ensures Unconsumed(Resume(st, fuel, rank).state.lex) == []
    decreases fuel, 1
  {
    if Read(st.lex).token.Some? {
      ResumeConsumesStep(st, fuel, rank);
    } else {
      ResumeEnds(st, fuel, rank);
    }
  }

  /** The same when a token is read: the loop processes it and the rest of
      the run consumes the rest of the input. */
  lemma {:induction false} ResumeConsumesStep(st: Machine, fuel: nat, rank: Rank)
    requires MInv(st) && Resume(st, fuel, rank).status == Finished
    requires Read(st.lex).token.Some?
    ensures Unconsumed(Resume(st, fuel, rank).state.lex) == []
    decreases fuel, 0
  {
    var st1 := ResumeStep(st, fuel, rank);
    ResumeConsumesAll(st1, fuel - 1, rank);
  }

  /** In a run that finishes, reading a token means the loop processes it
      and goes on from the state `st1`. */
  lemma ResumeStep(st: Machine, fuel: nat, rank: Rank) returns (st1: Machine)
    requires MInv(st) && Resume(st, fuel, rank).status == Finished
    requires Read(st.lex).token.Some?
    ensures fuel > 0 && MInv(st1)
    ensures Resume(st, fuel, rank) == Resume(st1, fuel - 1, rank)
  {
    var n := Read(st.lex);
    st1 := Step(st.(lex := n.state), n.token.value, rank).state;
  }

  /** With nothing left to read the loop stops, with no unread input. */
  lemma ResumeEnds(st: Machine, fuel: nat, rank: Rank)
    requires MInv(st) && Read(st.lex).token.None?
    ensures Unconsumed(Resume(st, fuel, rank).state.lex) == []
  {
    ReadNoneAtEnd(st.lex);
  }

  /** A call of `write` that finishes leaves no unread input. */
  lemma WriteConsumesAll(st: Machine, chunk: string, fuel: nat, rank: Rank)
    requires MInv(st) && Write(st, chunk, fuel, rank).status == Finished
    ensures Unconsumed(Write(st, chunk, fuel, rank).state.lex) == []
  {
    var st1 := st.(lex := Push(st.lex, chunk));
    ResumeConsumesAll(ProcessPendingMacro(st1, rank), fuel, rank);
  }
}

/** Whole runs of `write` on the two inputs the program ships with, token
    by token, for every hash order. */
module Runs {
  import opened Text
  import opened Substitution
  import opened LexerSpec
  import opened Expansion

  /** The loop of `write` reads a token from `st` and processing it leads
      to `next` without a panic. */
  ghost predicate Moves(st: Machine, next: Machine, rank: Rank) {
    MInv(st) &&
    var n := Read(st.lex);
    n.token.Some? && Step(st.(lex := n.state), n.token.value, rank) == Next(next)
  }

  lemma MovesBy(st: Machine, lex: LexState, t: Token, next: Machine, rank: Rank)
    requires MInv(st)
    requires Read(st.lex) == Stepped(lex, Some(t))
    requires Step(st.(lex := lex), t, rank) == Next(next)
    ensures Moves(st, next, rank)
  {
  }

  lemma MovesResume(st: Machine, next: Machine, f: nat, rank: Rank)
    requires Moves(st, next, rank) && f >= 1
    ensures MInv(next) && Resume(st, f, rank) == Resume(next, f - 1, rank)
  {
  }

  /** The state at `i` moves to the next one. */
  ghost predicate Link(ss: seq<Machine>, i: nat, rank: Rank)
    requires i < |ss| - 1
  {
    Moves(ss[i], ss[i + 1], rank)
  }

  /** Each state moves to the next one. */
  ghost predicate Trace(ss: seq<Machine>, rank: Rank) {
    forall i: nat :: i < |ss| - 1 ==> Link(ss, i, rank)
  }

  /** One link of a trace: the loop of `write` goes from each state to
      the next for one token of fuel. */
  lemma TraceLink(ss: seq<Machine>, j: nat, f: nat, rank: Rank)
    requires j < |ss| - 1 && MInv(ss[j]) && Trace(ss, rank) && f >= 1
    ensures MInv(ss[j + 1]) && Resume(ss[j], f, rank) == Resume(ss[j + 1], f - 1, rank)
  {
    assert Link(ss, j, rank);
    MovesResume(ss[j], ss[j + 1], f, rank);
  }

  /** Equal neighbours make the first and the last element equal. */
  lemma {:induction false} Chain(rs: seq<Run>, j: nat)
    requires j < |rs| && forall i: nat :: j <= i < |rs| - 1 ==> rs[i] == rs[i + 1]
    ensures rs[j] == rs[|rs| - 1]
    decreases |rs| - j
  {
    if j < |rs| - 1 {
      Chain(rs, j + 1);
    }
  }

  /** Along a trace, the loop of `write` goes from the first state to the
      last one, one token per state. */
  lemma TraceResume(ss: seq<Machine>, f: nat, rank: Rank)
    requires ss != [] && (forall i :: 0 <= i < |ss| ==> MInv(ss[i])) && Trace(ss, rank) && f >= |ss| - 1
    ensures Resume(ss[0], f, rank) == Resume(ss[|ss| - 1], f - (|ss| - 1), rank)
  {
    var rs := seq(|ss|, i requires 0 <= i < |ss| => Resume(ss[i], f - i, rank));
    forall i: nat | i < |rs| - 1 ensures rs[i] == rs[i + 1] {
      TraceLink(ss, i, f - i, rank);
    }
    Chain(rs, 0);
  }

  /** The tokenizer between tokens at `idx` of `src`. */
  function At(src: string, idx: nat): LexState {
    LexState(src, idx, "", 0, TokenMode)
  }

  /** A call on the stack with the arguments `prev` complete and `last`
      being collected, outside any nested parentheses. */
  function Frame(name: string, value: string, prev: seq<string>, last: string): Macro {
    Macro(name, value, prev + [last], 0)
  }

  /** Outside any call, a literal is copied to the output. */
  lemma IdleLiteral(src: string, k: nat, macros: map<string, string>, out: string, rank: Rank)
    requires k < |src| && !IsNameChar(src[k]) && src[k] != LeftQuote
    ensures Moves(Machine(At(src, k), macros, [], None, false, out),
            Machine(At(src, k + 1), macros, [], None, false, out + [src[k]]), rank)
  {
    ReadLiteral(At(src, k));
    var st := Machine(At(src, k + 1), macros, [], None, false, out);
    var t := Token(LiteralToken, [src[k]]);
    assert !Skipped(st, t) && !IsMacroName(st, t);
    assert ProcessToken(st, t, rank) == st.(output := out + [src[k]]);
    MovesBy(Machine(At(src, k), macros, [], None, false, out), At(src, k + 1), t,
      st.(output := out + [src[k]]), rank);
  }

  /** Outside any call, a name that is not a macro is copied to the output. */
  lemma IdleName(src: string, k: nat, w: string, macros: map<string, string>, out: string, rank: Rank)
    requires w != [] && AllNameChars(w) && Spells(src, k, w) && k + |w| < |src|
    requires !IsNameChar(src[k + |w|]) && w !in macros && w != DefineName
    ensures Moves(Machine(At(src, k), macros, [], None, false, out),
            Machine(At(src, k + |w|), macros, [], None, false, out + w), rank)
  {
    ReadName(At(src, k), w);
    var st := Machine(At(src, k + |w|), macros, [], None, false, out);
    var t := Token(NameToken, w);
    assert !Skipped(st, t) && !IsMacroName(st, t);
    assert ProcessToken(st, t, rank) == st.(output := out + w);
    MovesBy(Machine(At(src, k), macros, [], None, false, out), At(src, k + |w|), t,
      st.(output := out + w), rank);
  }

  /** Outside any call, a macro name followed by `(` opens a call. */
  lemma CallOpens(src: string, k: nat, w: string, macros: map<string, string>, out: string, rank: Rank)
    requires w != [] && AllNameChars(w) && Spells(src, k, w) && k + |w| < |src|
    requires src[k + |w|] == '(' && (w in macros || w == DefineName)
    ensures var v := if w in macros then macros[w] else "";
      Moves(Machine(At(src, k), macros, [], None, false, out),
            Machine(At(src, k + |w| + 1), macros, [Frame(w, v, [w], "")], None, true, out), rank)
  {
    var v := if w in macros then macros[w] else "";
    ReadName(At(src, k), w);
    var st := Machine(At(src, k + |w|), macros, [], None, false, out);
    var t := Token(NameToken, w);
    assert IsMacroName(st, t);
    var p := st.(pending := Some(NewMacro(w, v)));
    assert ProcessToken(st, t, rank) == p;
    ReadLiteral(At(src, k + |w|));
    assert Peek(p.lex) == Some('(');
    assert Read(p.lex).state == At(src, k + |w| + 1);
    var m := NewMacro(w, v);
    assert m.(args := m.args + [""]) == Frame(w, v, [w], "");
    assert p.stack + [Frame(w, v, [w], "")] == [Frame(w, v, [w], "")];
    assert StartMacroArgs(p) == Machine(At(src, k + |w| + 1), macros, [Frame(w, v, [w], "")], None, true, out);
    MovesBy(Machine(At(src, k), macros, [], None, false, out), At(src, k + |w|), t,
      Machine(At(src, k + |w| + 1), macros, [Frame(w, v, [w], "")], None, true, out), rank);
  }

  /** Inside a call, a token that is neither a macro name nor one of
      `(`, `)`, `,` is added to the argument being collected. */
  lemma ArgAppend(src: string, k: nat, k': nat, t: Token, macros: map<string, string>,
                  name: string, value: string, prev: seq<string>, last: string, skip: bool,
                  out: string, rank: Rank)
    requires k <= |src| && k' <= |src| && |prev| >= 1 && prev[0] == name
    requires Read(At(src, k)) == Stepped(At(src, k'), Some(t))
    requires !(t.kind == NameToken && (t.value in macros || t.value == DefineName))
    requires t.kind == LiteralToken ==> t.value != "(" && t.value != ")" && t.value != ","
    requires !(skip && t.kind == LiteralToken && AllWhitespace(t.value))
    ensures Moves(Machine(At(src, k), macros, [Frame(name, value, prev, last)], None, skip, out),
            Machine(At(src, k'), macros, [Frame(name, value, prev, last + t.value)], None, false, out), rank)
  {
    var st := Machine(At(src, k'), macros, [Frame(name, value, prev, last)], None, skip, out);
    var m := Frame(name, value, prev, last);
    assert FrameOk(m);
    assert !Skipped(st, t) && !IsMacroName(st, t) && TokenSafe(st, t);
    var st1 := st.(skip := false);
    if t.kind == LiteralToken {
      assert ProcessLiteralInMacro(st1, t, rank) == (st1, false);
    }
    assert ProcessToken(st, t, rank) == AppendArg(st1, t.value);
    var args := prev + [last];
    assert args[..|args| - 1] == prev && args[|args| - 1] == last;
    assert SetTop(st1.stack, m.(args := prev + [last + t.value])) == [Frame(name, value, prev, last + t.value)];
    MovesBy(Machine(At(src, k), macros, [Frame(name, value, prev, last)], None, skip, out), At(src, k'), t,
      Machine(At(src, k'), macros, [Frame(name, value, prev, last + t.value)], None, false, out), rank);
  }

  /** Inside a call, a quoted string loses its quotes and is added to the
      argument. */
  lemma ArgString(src: string, k: nat, w: string, macros: map<string, string>,
                  name: string, value: string, prev: seq<string>, last: string, skip: bool,
                  out: string, rank: Rank)
    requires |prev| >= 1 && prev[0] == name && k + |w| + 1 < |src|
    requires src[k] == LeftQuote && Spells(src, k + 1, w) && src[k + |w| + 1] == RightQuote
    requires forall i :: 0 <= i < |w| ==> w[i] != LeftQuote && w[i] != RightQuote
    ensures Moves(Machine(At(src, k), macros, [Frame(name, value, prev, last)], None, skip, out),
            Machine(At(src, k + |w| + 2), macros, [Frame(name, value, prev, last + w)], None, false, out), rank)
  {
    ReadFlatString(At(src, k), w);
    ArgAppend(src, k, k + |w| + 2, Token(StringToken, w), macros, name, value, prev, last, skip, out, rank);
  }

  /** Inside a call, a name that is not a macro is added to the argument. */
  lemma ArgName(src: string, k: nat, w: string, macros: map<string, string>,
                name: string, value: string, prev: seq<string>, last: string, skip: bool,
                out: string, rank: Rank)
    requires |prev| >= 1 && prev[0] == name
    requires w != [] && AllNameChars(w) && Spells(src, k, w) && k + |w| < |src|
    requires !IsNameChar(src[k + |w|]) && w !in macros && w != DefineName
    ensures Moves(Machine(At(src, k), macros, [Frame(name, value, prev, last)], None, skip, out),
            Machine(At(src, k + |w|), macros, [Frame(name, value, prev, last + w)], None, false, out), rank)
  {
    ReadName(At(src, k), w);
    ArgAppend(src, k, k + |w|, Token(NameToken, w), macros, name, value, prev, last, skip, out, rank);
  }

  /** Inside a call, a literal other than `(`, `)` and `,` is added to the
      argument, unless it is white space being skipped. */
  lemma ArgLiteral(src: string, k: nat, macros: map<string, string>,
                   name: string, value: string, prev: seq<string>, last: string, skip: bool,
                   out: string, rank: Rank)
    requires |prev| >= 1 && prev[0] == name && k < |src|
    requires !IsNameChar(src[k]) && src[k] != LeftQuote && src[k] != '(' && src[k] != ')' && src[k] != ','
    requires !(skip && IsWhitespace(src[k]))
    ensures Moves(Machine(At(src, k), macros, [Frame(name, value, prev, last)], None, skip, out),
            Machine(At(src, k + 1), macros, [Frame(name, value, prev, last + [src[k]])], None, false, out), rank)
  {
    ReadLiteral(At(src, k));
    var t := Token(LiteralToken, [src[k]]);
    assert t.value[0] == src[k];
    ArgAppend(src, k, k + 1, t, macros, name, value, prev, last, skip, out, rank);
  }

  /** Inside a call, white space right after the `(` or a `,` is dropped. */
  lemma ArgSkip(src: string, k: nat, macros: map<string, string>,
                name: string, value: string, prev: seq<string>, last: string,
                out: string, rank: Rank)
    requires |prev| >= 1 && prev[0] == name && k < |src| && IsWhitespace(src[k])
    ensures Moves(Machine(At(src, k), macros, [Frame(name, value, prev, last)], None, true, out),
            Machine(At(src, k + 1), macros, [Frame(name, value, prev, last)], None, true, out), rank)
  {
    ReadLiteral(At(src, k));
    var st := Machine(At(src, k + 1), macros, [Frame(name, value, prev, last)], None, true, out);
    var t := Token(LiteralToken, [src[k]]);
    assert FrameOk(Frame(name, value, prev, last));
    assert Skipped(st, t);
    MovesBy(Machine(At(src, k), macros, [Frame(name, value, prev, last)], None, true, out), At(src, k + 1), t, st, rank);
  }

  /** Inside a call, a `,` ends the argument and starts the next one. */
  lemma ArgComma(src: string, k: nat, macros: map<string, string>,
                 name: string, value: string, prev: seq<string>, last: string, skip: bool,
                 out: string, rank: Rank)
    requires |prev| >= 1 && prev[0] == name && k < |src| && src[k] == ','
    ensures Moves(Machine(At(src, k), macros, [Frame(name, value, prev, last)], None, skip, out),
            Machine(At(src, k + 1), macros, [Frame(name, value, prev + [last], "")], None, true, out), rank)
  {
    ReadLiteral(At(src, k));
    var st := Machine(At(src, k + 1), macros, [Frame(name, value, prev, last)], None, skip, out);
    var t := Token(LiteralToken, [src[k]]);
    var m := Frame(name, value, prev, last);
    assert FrameOk(m);
    assert t.value == "," && t.kind == LiteralToken;
    assert t.value != ")" && t.value != "(" by { assert t.value[0] != ")"[0] && t.value[0] != "("[0]; }
    assert !IsWhitespace(t.value[0]);
    assert MInv(st);
    assert !Skipped(st, t) && !IsMacroName(st, t);
    var st1 := st.(skip := false);
    assert SetTop(st1.stack, m.(args := m.args + [""])) == [Frame(name, value, prev + [last], "")];
    assert ProcessLiteralInMacro(st1, t, rank) == (st1.(stack := [Frame(name, value, prev + [last], "")], skip := true), true);
    MovesBy(Machine(At(src, k), macros, [Frame(name, value, prev, last)], None, skip, out), At(src, k + 1), t,
      Machine(At(src, k + 1), macros, [Frame(name, value, prev + [last], "")], None, true, out), rank);
  }

  /** Inside a call, the `)` that closes it calls the macro with the
      arguments collected, and the expansion is read next. */
  lemma ArgClose(src: string, k: nat, macros: map<string, string>,
                 name: string, value: string, prev: seq<string>, last: string, skip: bool,
                 out: string, after: string, macros': map<string, string>, rank: Rank)
    requires |prev| >= 1 && prev[0] == name && k < |src| && src[k] == ')'
    requires CallSafe(Frame(name, value, prev, last))
    requires var c := CallMacro(macros, Frame(name, value, prev, last), rank);
      after == c.text + src[k + 1..] && macros' == c.macros
    ensures Moves(Machine(At(src, k), macros, [Frame(name, value, prev, last)], None, skip, out),
                  Machine(At(after, 0), macros', [], None, false, out), rank)
  {
    ReadLiteral(At(src, k));
    var m := Frame(name, value, prev, last);
    var c := CallMacro(macros, m, rank);
    var st := Machine(At(src, k + 1), macros, [m], None, skip, out);
    var t := Token(LiteralToken, [src[k]]);
    assert FrameOk(m);
    assert t.value == ")" && t.kind == LiteralToken;
    assert !IsWhitespace(t.value[0]);
    assert MInv(st);
    assert !Skipped(st, t) && !IsMacroName(st, t) && TokenSafe(st, t);
    var st1 := st.(skip := false);
    var popped := st1.(stack := []);
    assert Unshift(popped.lex, c.text) == At(after, 0);
    assert ProcessLiteralInMacro(st1, t, rank) == (popped.(lex := At(after, 0), macros := macros'), true);
    MovesBy(Machine(At(src, k), macros, [m], None, skip, out), At(src, k + 1), t,
      Machine(At(after, 0), macros', [], None, false, out), rank);
  }

  /** Outside any call, a macro name not followed by `(` is called with no
      arguments, and its expansion is read next. */
  lemma CallsNow(src: string, k: nat, w: string, macros: map<string, string>, out: string,
                 after: string, rank: Rank)
    requires w != [] && AllNameChars(w) && Spells(src, k, w) && k + |w| < |src|
    requires !IsNameChar(src[k + |w|]) && src[k + |w|] != '(' && w in macros && w != DefineName && ExpandSafe(macros[w], 1)
    requires after == Expand(macros[w], [w], rank) + src[k + |w|..]
    ensures Moves(Machine(At(src, k), macros, [], None, false, out),
                  Machine(At(after, 0), macros, [], None, false, out), rank)
  {
    ReadName(At(src, k), w);
    var st := Machine(At(src, k + |w|), macros, [], None, false, out);
    var t := Token(NameToken, w);
    assert IsMacroName(st, t);
    var m := NewMacro(w, macros[w]);
    var p := st.(pending := Some(m));
    assert ProcessToken(st, t, rank) == p;
    assert CallSafe(m) && PendingSafe(p);
    assert Peek(p.lex) == Some(src[k + |w|]);
    var text := Expand(macros[w], [w], rank);
    assert CallMacro(macros, m, rank) == Called(macros, text);
    assert Unshift(p.lex, text) == At(after, 0);
    assert ProcessPendingMacro(p, rank) == Machine(At(after, 0), macros, [], None, false, out);
    MovesBy(Machine(At(src, k), macros, [], None, false, out), At(src, k + |w|), t,
      Machine(At(after, 0), macros, [], None, false, out), rank);
  }

  /** `w` starts at `idx` of `src`. */
  predicate Spells(src: string, idx: nat, w: string) {
    idx + |w| <= |src| && forall i :: 0 <= i < |w| ==> src[idx + i] == w[i]
  }

  // ---------------------------------------------------------------------
  // The first input: defining and calling `foo`
  // ---------------------------------------------------------------------

  const HelloInput: string := "\ndefine(`foo', `Hello world.')\nfoo\n"

  /** What the first input spells out, character by character. */
  ghost predicate HelloShape(src: string) {
    |src| == 35 && src[0] == '\n' && Spells(src, 1, DefineName) && src[7] == '(' &&
    src[8] == LeftQuote && Spells(src, 9, "foo") && src[12] == RightQuote && src[13] == ',' &&
    src[14] == ' ' && src[15] == LeftQuote && Spells(src, 16, "Hello world.") && src[28] == RightQuote &&
    src[29] == ')' && src[30] == '\n' && Spells(src, 31, "foo") && src[34] == '\n'
  }

  lemma HelloInputHead()
    ensures |HelloInput| == 35 && HelloInput[0] == '\n' && Spells(HelloInput, 1, DefineName)
    ensures HelloInput[7] == '('
  {
  }

  lemma HelloInputFirst()
    ensures |HelloInput| == 35 && HelloInput[8] == LeftQuote && Spells(HelloInput, 9, "foo")
    ensures HelloInput[12] == RightQuote && HelloInput[13] == ',' && HelloInput[14] == ' '
  {
  }

  lemma HelloInputTail()
    ensures |HelloInput| == 35 && HelloInput[15] == LeftQuote && Spells(HelloInput, 16, "Hello world.")
    ensures HelloInput[28] == RightQuote && HelloInput[29] == ')' && HelloInput[30] == '\n'
    ensures Spells(HelloInput, 31, "foo") && HelloInput[34] == '\n'
  {
  }

  lemma HelloInputShape()
    ensures HelloShape(HelloInput)
  {
    HelloInputHead();
    HelloInputFirst();
    HelloInputTail();
  }

  /** The state of the controller before each of the fourteen tokens of the
      first input is processed, and after the last one. */
  function HelloStates(src: string): seq<Machine>
    requires |src| >= 34
  {
    var d := DefineName;
    var foo := map["foo" := "Hello world."];
    var t := "Hello world." + src[34..];
    [Machine(At(src, 0), map[], [], None, false, ""),
     Machine(At(src, 1), map[], [], None, false, "\n"),
     Machine(At(src, 8), map[], [Frame(d, "", [d], "")], None, true, "\n"),
     Machine(At(src, 13), map[], [Frame(d, "", [d], "foo")], None, false, "\n"),
     Machine(At(src, 14), map[], [Frame(d, "", [d, "foo"], "")], None, true, "\n"),
     Machine(At(src, 15), map[], [Frame(d, "", [d, "foo"], "")], None, true, "\n"),
     Machine(At(src, 29), map[], [Frame(d, "", [d, "foo"], "Hello world.")], None, false, "\n"),
     Machine(At(src[30..], 0), foo, [], None, false, "\n"),
     Machine(At(src[30..], 1), foo, [], None, false, "\n\n"),
     Machine(At(t, 0), foo, [], None, false, "\n\n"),
     Machine(At(t, 5), foo, [], None, false, "\n\nHello"),
     Machine(At(t, 6), foo, [], None, false, "\n\nHello "),
     Machine(At(t, 11), foo, [], None, false, "\n\nHello world"),
     Machine(At(t, 12), foo, [], None, false, "\n\nHello world."),
     Machine(At(t, 13), foo, [], None, false, "\n\nHello world.\n")]
  }

  ghost predicate HelloOk(src: string) {
    HelloShape(src) && |HelloStates(src)| == 15 &&
    forall k :: 0 <= k < 15 ==> MInv(HelloStates(src)[k])
  }

  lemma HelloStatesOk(src: string)
    requires HelloShape(src)
    ensures HelloOk(src)
  {
    var ss := HelloStates(src);
    forall k | 0 <= k < 15 ensures MInv(ss[k]) {
      forall i | 0 <= i < |ss[k].stack| ensures FrameOk(ss[k].stack[i]) {
      }
    }
  }

  // Each token of the first input, as the step from the state before it
  // to the state after it.

  lemma Hello0(src: string, k: nat, rank: Rank)
    requires HelloShape(src) && k == 0
    ensures Moves(HelloStates(src)[k], HelloStates(src)[k + 1], rank)
  {
    Hello0Token(src, rank);
  }

  /** The newline before `define` is output. */
  lemma Hello0Token(src: string, rank: Rank)
    requires HelloShape(src)
    ensures Moves(Machine(At(src, 0), map[], [], None, false, ""),
                  Machine(At(src, 1), map[], [], None, false, "\n"), rank)
  {
    IdleLiteral(src, 0, map[], "", rank);
    assert "" + [src[0]] == "\n";
  }

  lemma Hello1(src: string, k: nat, rank: Rank)
    requires HelloShape(src) && k == 1
    ensures Moves(HelloStates(src)[k], HelloStates(src)[k + 1], rank)
  {
    Hello1Token(src, rank);
  }

  /** `define(` opens a call of the built-in. */
  lemma Hello1Token(src: string, rank: Rank)
    requires HelloShape(src)
    ensures Moves(Machine(At(src, 1), map[], [], None, false, "\n"),
                  Machine(At(src, 8), map[], [Frame(DefineName, "", [DefineName], "")], None, true, "\n"), rank)
  {
    CallOpens(src, 1, DefineName, map[], "\n", rank);
  }

  lemma Hello2(src: string, k: nat, rank: Rank)
    requires HelloShape(src) && k == 2
    ensures Moves(HelloStates(src)[k], HelloStates(src)[k + 1], rank)
  {
    Hello2Token(src, rank);
  }

  /** The quoted `foo` becomes the first argument. */
  lemma Hello2Token(src: string, rank: Rank)
    requires HelloShape(src)
    ensures Moves(Machine(At(src, 8), map[], [Frame(DefineName, "", [DefineName], "")], None, true, "\n"),
                  Machine(At(src, 13), map[], [Frame(DefineName, "", [DefineName], "foo")], None, false, "\n"), rank)
  {
    ArgString(src, 8, "foo", map[], DefineName, "", [DefineName], "", true, "\n", rank);
    assert "" + "foo" == "foo";
  }

  lemma Hello3(src: string, k: nat, rank: Rank)
    requires HelloShape(src) && k == 3
    ensures Moves(HelloStates(src)[k], HelloStates(src)[k + 1], rank)
  {
    Hello3Token(src, rank);
  }

  /** The comma ends it. */
  lemma Hello3Token(src: string, rank: Rank)
    requires HelloShape(src)
    ensures Moves(Machine(At(src, 13), map[], [Frame(DefineName, "", [DefineName], "foo")], None, false, "\n"),
                  Machine(At(src, 14), map[], [Frame(DefineName, "", [DefineName, "foo"], "")], None, true, "\n"), rank)
  {
    ArgComma(src, 13, map[], DefineName, "", [DefineName], "foo", false, "\n", rank);
    assert [DefineName] + ["foo"] == [DefineName, "foo"];
  }

  lemma Hello4(src: string, k: nat, rank: Rank)
    requires HelloShape(src) && k == 4
    ensures Moves(HelloStates(src)[k], HelloStates(src)[k + 1], rank)
  {
    Hello4Token(src, rank);
  }

  /** The blank after the comma is dropped. */
  lemma Hello4Token(src: string, rank: Rank)
    requires HelloShape(src)
    ensures Moves(Machine(At(src, 14), map[], [Frame(DefineName, "", [DefineName, "foo"], "")], None, true, "\n"),
                  Machine(At(src, 15), map[], [Frame(DefineName, "", [DefineName, "foo"], "")], None, true, "\n"), rank)
  {
    ArgSkip(src, 14, map[], DefineName, "", [DefineName, "foo"], "", "\n", rank);
  }

  /** No quote occurs in the text the first input defines. */
  lemma HelloValueFlat()
    ensures forall i :: 0 <= i < |"Hello world."| ==> "Hello world."[i] != LeftQuote && "Hello world."[i] != RightQuote
    ensures forall i :: 0 <= i < |"Hello world."| ==> "Hello world."[i] != '$'
  {
    var h := "Hello world.";
    forall i | 0 <= i < |h| ensures h[i] != LeftQuote && h[i] != RightQuote && h[i] != '$' {
      assert i == 0 || i == 1 || i == 2 || i == 3 || i == 4 || i == 5 || i == 6 || i == 7 ||
             i == 8 || i == 9 || i == 10 || i == 11;
    }
  }

  lemma Hello5(src: string, k: nat, rank: Rank)
    requires HelloShape(src) && k == 5
    ensures Moves(HelloStates(src)[k], HelloStates(src)[k + 1], rank)
  {
    Hello5Token(src, rank);
  }

  /** The quoted `Hello world.` becomes the second argument. */
  lemma Hello5Token(src: string, rank: Rank)
    requires HelloShape(src)
    ensures Moves(Machine(At(src, 15), map[], [Frame(DefineName, "", [DefineName, "foo"], "")], None, true, "\n"),
                  Machine(At(src, 29), map[], [Frame(DefineName, "", [DefineName, "foo"], "Hello world.")], None, false, "\n"), rank)
  {
    HelloValueFlat();
    ArgString(src, 15, "Hello world.", map[], DefineName, "", [DefineName, "foo"], "", true, "\n", rank);
    assert "" + "Hello world." == "Hello world.";
  }

  lemma Hello6(src: string, k: nat, rank: Rank)
    requires HelloShape(src) && k == 6
    ensures Moves(HelloStates(src)[k], HelloStates(src)[k + 1], rank)
  {
    Hello6Token(src, rank);
  }

  /** The `)` calls `define`, which adds `foo` to the table and expands to
      nothing. */
  lemma Hello6Token(src: string, rank: Rank)
    requires HelloShape(src)
    ensures Moves(Machine(At(src, 29), map[], [Frame(DefineName, "", [DefineName, "foo"], "Hello world.")], None, false, "\n"),
                  Machine(At(src[30..], 0), map["foo" := "Hello world."], [], None, false, "\n"), rank)
  {
    var m := Frame(DefineName, "", [DefineName, "foo"], "Hello world.");
    assert m.args == [DefineName, "foo", "Hello world."];
    assert CallMacro(map[], m, rank) == Called(map["foo" := "Hello world."], "");
    assert "" + src[30..] == src[30..];
    ArgClose(src, 29, map[], DefineName, "", [DefineName, "foo"], "Hello world.", false, "\n",
      src[30..], map["foo" := "Hello world."], rank);
  }

  lemma Hello7(src: string, k: nat, rank: Rank)
    requires HelloShape(src) && k == 7
    ensures Moves(HelloStates(src)[k], HelloStates(src)[k + 1], rank)
  {
    Hello7Token(src, rank);
  }

  /** The newline after the call is output. */
  lemma Hello7Token(src: string, rank: Rank)
    requires HelloShape(src)
    ensures Moves(Machine(At(src[30..], 0), map["foo" := "Hello world."], [], None, false, "\n"),
                  Machine(At(src[30..], 1), map["foo" := "Hello world."], [], None, false, "\n\n"), rank)
  {
    IdleLiteral(src[30..], 0, map["foo" := "Hello world."], "\n", rank);
    assert "\n" + [src[30..][0]] == "\n\n";
  }

  /** `foo` without arguments is called at once, and its text is read
      next. */
  lemma Hello8(src: string, k: nat, rank: Rank)
    requires HelloShape(src) && k == 8
    ensures Moves(HelloStates(src)[k], HelloStates(src)[k + 1], rank)
  {
    Hello8Token(src, rank);
  }

  lemma Hello8Token(src: string, rank: Rank)
    requires HelloShape(src)
    ensures var foo := map["foo" := "Hello world."];
      Moves(Machine(At(src[30..], 1), foo, [], None, false, "\n\n"),
            Machine(At("Hello world." + src[34..], 0), foo, [], None, false, "\n\n"), rank)
  {
    HelloTemplate(rank);
    HelloCallSite(src);
    CallsNow(src[30..], 1, "foo", map["foo" := "Hello world."], "\n\n", "Hello world." + src[34..], rank);
  }

  /** The text `foo` is defined with has no placeholder, so it expands to
      itself. */
  lemma HelloTemplate(rank: Rank)
    ensures ExpandSafe("Hello world.", 1) && Expand("Hello world.", ["foo"], rank) == "Hello world."
  {
    HelloValueFlat();
    assert NoPlaceholders("Hello world.");
    MatchesEmpty("Hello world.");
  }

  /** Where `foo` is called, after the call to `define` has been replaced
      by its empty expansion. */
  lemma HelloCallSite(src: string)
    requires HelloShape(src)
    ensures var rest := src[30..];
      |rest| == 5 && Spells(rest, 1, "foo") && rest[4] == '\n' && rest[4..] == src[34..]
  {
    var rest := src[30..];
    forall i | 0 <= i < 3 ensures rest[1 + i] == "foo"[i] {
      assert rest[1 + i] == src[31 + i];
    }
  }

  lemma Hello9(src: string, k: nat, rank: Rank)
    requires HelloShape(src) && k == 9
    ensures Moves(HelloStates(src)[k], HelloStates(src)[k + 1], rank)
  {
    Hello9Token(src, rank);
  }

  /** The word `Hello` is no macro and is output. */
  lemma Hello9Token(src: string, rank: Rank)
    requires HelloShape(src)
    ensures Moves(Machine(At(("Hello world." + src[34..]), 0), map["foo" := "Hello world."], [], None, false, "\n\n"),
                  Machine(At(("Hello world." + src[34..]), 5), map["foo" := "Hello world."], [], None, false, "\n\nHello"), rank)
  {
    var t := "Hello world." + src[34..];
    assert Spells(t, 0, "Hello") && t[5] == ' ';
    IdleName(t, 0, "Hello", map["foo" := "Hello world."], "\n\n", rank);
  }

  lemma Hello10(src: string, k: nat, rank: Rank)
    requires HelloShape(src) && k == 10
    ensures Moves(HelloStates(src)[k], HelloStates(src)[k + 1], rank)
  {
    Hello10Token(src, rank);
  }

  lemma Hello10Token(src: string, rank: Rank)
    requires HelloShape(src)
    ensures Moves(Machine(At(("Hello world." + src[34..]), 5), map["foo" := "Hello world."], [], None, false, "\n\nHello"),
                  Machine(At(("Hello world." + src[34..]), 6), map["foo" := "Hello world."], [], None, false, "\n\nHello "), rank)
  {
    var t := "Hello world." + src[34..];
    assert t[5] == ' ';
    IdleLiteral(t, 5, map["foo" := "Hello world."], "\n\nHello", rank);
  }

  lemma Hello11(src: string, k: nat, rank: Rank)
    requires HelloShape(src) && k == 11
    ensures Moves(HelloStates(src)[k], HelloStates(src)[k + 1], rank)
  {
    Hello11Token(src, rank);
  }

  lemma Hello11Token(src: string, rank: Rank)
    requires HelloShape(src)
    ensures Moves(Machine(At(("Hello world." + src[34..]), 6), map["foo" := "Hello world."], [], None, false, "\n\nHello "),
                  Machine(At(("Hello world." + src[34..]), 11), map["foo" := "Hello world."], [], None, false, "\n\nHello world"), rank)
  {
    var t := "Hello world." + src[34..];
    assert Spells(t, 6, "world") && t[11] == '.';
    IdleName(t, 6, "world", map["foo" := "Hello world."], "\n\nHello ", rank);
  }

  lemma Hello12(src: string, k: nat, rank: Rank)
    requires HelloShape(src) && k == 12
    ensures Moves(HelloStates(src)[k], HelloStates(src)[k + 1], rank)
  {
    Hello12Token(src, rank);
  }

  lemma Hello12Token(src: string, rank: Rank)
    requires HelloShape(src)
    ensures Moves(Machine(At(("Hello world." + src[34..]), 11), map["foo" := "Hello world."], [], None, false, "\n\nHello world"),
                  Machine(At(("Hello world." + src[34..]), 12), map["foo" := "Hello world."], [], None, false, "\n\nHello world."), rank)
  {
    var t := "Hello world." + src[34..];
    assert t[11] == '.';
    IdleLiteral(t, 11, map["foo" := "Hello world."], "\n\nHello world", rank);
  }

  lemma Hello13(src: string, k: nat, rank: Rank)
    requires HelloShape(src) && k == 13
    ensures Moves(HelloStates(src)[k], HelloStates(src)[k + 1], rank)
  {
    Hello13Token(src, rank);
  }

  lemma Hello13Token(src: string, rank: Rank)
    requires HelloShape(src)
    ensures Moves(Machine(At(("Hello world." + src[34..]), 12), map["foo" := "Hello world."], [], None, false, "\n\nHello world."),
                  Machine(At(("Hello world." + src[34..]), 13), map["foo" := "Hello world."], [], None, false, "\n\nHello world.\n"), rank)
  {
    var t := "Hello world." + src[34..];
    assert t[12] == '\n';
    IdleLiteral(t, 12, map["foo" := "Hello world."], "\n\nHello world.", rank);
  }

  lemma HelloMoveHead(src: string, k: nat, rank: Rank)
    requires HelloShape(src) && k < 7
    ensures Moves(HelloStates(src)[k], HelloStates(src)[k + 1], rank)
  {
    if k == 0 { Hello0(src, k, rank); }
    else if k == 1 { Hello1(src, k, rank); }
    else if k == 2 { Hello2(src, k, rank); }
    else if k == 3 { Hello3(src, k, rank); }
    else if k == 4 { Hello4(src, k, rank); }
    else if k == 5 { Hello5(src, k, rank); }
    else { Hello6(src, k, rank); }
  }

  lemma HelloMoveTail(src: string, k: nat, rank: Rank)
    requires HelloShape(src) && 7 <= k < 14
    ensures Moves(HelloStates(src)[k], HelloStates(src)[k + 1], rank)
  {
    if k == 7 { Hello7(src, k, rank); }
    else if k == 8 { Hello8(src, k, rank); }
    else if k == 9 { Hello9(src, k, rank); }
    else if k == 10 { Hello10(src, k, rank); }
    else if k == 11 { Hello11(src, k, rank); }
    else if k == 12 { Hello12(src, k, rank); }
    else { Hello13(src, k, rank); }
  }

  /** The fifteen states of the first input form a trace. */
  lemma HelloTrace(src: string, rank: Rank)
    requires HelloShape(src)
    ensures Trace(HelloStates(src), rank)
  {
    var ss := HelloStates(src);
    forall k: nat | k < |ss| - 1 ensures Link(ss, k, rank) {
      if k < 7 { HelloMoveHead(src, k, rank); } else { HelloMoveTail(src, k, rank); }
    }
  }

  /** `write` on a fresh controller starts reading its chunk from the top. */
  lemma WriteStart(src: string, f: nat, rank: Rank)
    ensures Write(Start, src, f, rank) == Resume(Machine(At(src, 0), map[], [], None, false, ""), f, rank)
  {
    assert "" + src == src;
    assert Push(Initial, src) == At(src, 0);
  }

  /** With the whole input read, the loop of `write` stops. */
  lemma ResumeEnd(st: Machine, f: nat, rank: Rank)
    requires MInv(st) && st.lex.idx == |st.lex.source|
    ensures Resume(st, f, rank) == Run(st, Finished)
  {
  }

  /** `write` on a fresh controller goes through the fifteen states of the
      first input and stops at the end of the input. */
  lemma HelloRun(src: string, f: nat, rank: Rank)
    requires HelloShape(src) && f >= 14
    ensures Write(Start, src, f, rank) == Run(HelloStates(src)[14], Finished)
  {
    var ss := HelloStates(src);
    HelloStatesOk(src);
    assert Resume(ss[0], f, rank) == Resume(ss[14], f - 14, rank) by {
      HelloTrace(src, rank);
      TraceResume(ss, f, rank);
    }
    assert Resume(ss[14], f - 14, rank) == Run(ss[14], Finished) by {
      ResumeEnd(ss[14], f - 14, rank);
    }
    WriteStart(src, f, rank);
  }

  /** The first input defines `foo` as `Hello world.` and calls it: the
      output is the two newlines around the call of `define`, the text of
      `foo`, and the last newline, whatever the hash order. */
  lemma HelloWorld(f: nat, rank: Rank)
    requires f >= 14
    ensures var r := Write(Start, HelloInput, f, rank);
      r.status == Finished && r.state.output == "\n\nHello world.\n" &&
      r.state.macros == map["foo" := "Hello world."]
  {
    HelloInputShape();
    HelloRun(HelloInput, f, rank);
  }
}

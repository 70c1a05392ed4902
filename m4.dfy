/** The `M4` object: the macro table, the stack of calls whose arguments
    are being collected, the pending macro, the white-space flag, the output
    and the tokenizer, all updated in place. Each method is proved against
    its counterpart in Expansion. */
module Controller {
  import opened Text
  import opened Substitution
  import opened LexerSpec
  import opened Lexer
  import opened Expansion

  class M4 {
    var pending: Option<Macro>
    var macroStack: seq<Macro>
    var skipWhitespace: bool
    var output: string
    const tokenizer: Tokenizer
    var macros: map<string, string>
    /** The hash order of `expand`, the same for every call this object
        makes; it ranks a template's placeholders, given in order of first
        occurrence. */
    const rank: Rank

    function State(): Machine
      reads this, tokenizer
    {
      Machine(tokenizer.State(), macros, macroStack, pending, skipWhitespace, output)
    }

    ghost predicate Valid()
      reads this, tokenizer
    {
      MInv(State())
    }

    constructor (rank: Rank)
      ensures State() == Start && Valid() && this.rank == rank
      ensures fresh(tokenizer)
    {
      pending := None;
      macroStack := [];
      skipWhitespace := false;
      output := "";
      tokenizer := new Tokenizer();
      macros := map[];
      this.rank := rank;
    }

    method Define(name: string, value: string)
      modifies this
      ensures State() == old(State()).(macros := Expansion.Define(old(macros), name, value))
    {
      macros := macros[name := value];
    }

    method CallMacro(m: Macro) returns (text: string)
      requires CallSafe(m)
      modifies this
      ensures var c := Expansion.CallMacro(old(macros), m, rank);
        text == c.text && State() == old(State()).(macros := c.macros)
    {
      if m.name == DefineName {
        Define(m.args[1], m.args[2]);
        return "";
      }
      text := Expand(m.value, m.args, rank);
    }

    method ProcessPendingMacro()
      requires Valid() && PendingSafe(State())
      modifies this, tokenizer
      ensures State() == Expansion.ProcessPendingMacro(old(State()), rank)
    {
      if pending.None? {
        return;
      }
      var ch := tokenizer.PeekChar();
      if ch.None? {
        return;
      }
      if ch.value == '(' {
        StartMacroArgs();
        return;
      }
      var result := CallMacro(pending.value);
      tokenizer.Unshift(result);
      pending := None;
    }

    method StartMacroArgs()
      requires Valid()
      modifies this, tokenizer
      ensures State() == Expansion.StartMacroArgs(old(State()))
    {
      var _ := tokenizer.Read();
      if pending.None? {
        return;
      }
      var m := pending.value;
      m := m.(args := m.args + [""]);
      macroStack := macroStack + [m];
      pending := None;
      skipWhitespace := true;
    }

    method ProcessToken(t: Token)
      requires Valid() && TokenSafe(State(), t)
      modifies this, tokenizer
      ensures State() == Expansion.ProcessToken(old(State()), t, rank)
    {
      if skipWhitespace && t.kind == LiteralToken && AllWhitespace(t.value) {
        return;
      }
      skipWhitespace := false;
      if t.kind == NameToken && (t.value in macros || t.value == DefineName) {
        pending := Some(NewMacro(t.value, if t.value in macros then macros[t.value] else ""));
        return;
      }
      if |macroStack| == 0 {
        PushOutput(t.value);
        return;
      }
      if t.kind == LiteralToken {
        var handled := ProcessLiteralInMacro(t);
        if handled {
          return;
        }
      }
      AppendArg(t.value);
    }

    /** The tail of `process_token`: `text` goes at the end of the last
        argument of the innermost call. */
    method AppendArg(text: string)
      requires macroStack != []
      modifies this
      ensures State() == Expansion.AppendArg(old(State()), text)
    {
      var m := macroStack[|macroStack| - 1];
      if |m.args| > 0 {
        var args := m.args[..|m.args| - 1] + [m.args[|m.args| - 1] + text];
        macroStack := macroStack[..|macroStack| - 1] + [m.(args := args)];
      }
    }

    method PushOutput(text: string)
      modifies this
      ensures State() == Expansion.PushOutput(old(State()), text)
    {
      output := output + text;
    }

    method ProcessLiteralInMacro(t: Token) returns (handled: bool)
      requires Valid() && LiteralSafe(State(), t)
      modifies this, tokenizer
      ensures (State(), handled) == Expansion.ProcessLiteralInMacro(old(State()), t, rank)
    {
      if |macroStack| == 0 {
        return false;
      }
      var m := macroStack[|macroStack| - 1];
      if t.value == ")" {
        if m.parens == 0 {
          macroStack := macroStack[..|macroStack| - 1];
          var result := CallMacro(m);
          tokenizer.Unshift(result);
          return true;
        }
        macroStack := macroStack[..|macroStack| - 1] + [m.(parens := m.parens - 1)];
      } else if t.value == "(" {
        macroStack := macroStack[..|macroStack| - 1] + [m.(parens := m.parens + 1)];
      } else if t.value == "," && m.parens == 0 {
        macroStack := macroStack[..|macroStack| - 1] + [m.(args := m.args + [""])];
        skipWhitespace := true;
        return true;
      }
      return false;
    }

    /** One pass of the loop of `write` for the token `t`: process it, then
        the macro it may have left pending, unless that would panic. */
    method Step(t: Token) returns (ok: bool)
      requires Valid()
      modifies this, tokenizer
      ensures Valid()
      ensures var o := Expansion.Step(old(State()), t, rank);
        ok == o.Next? && State() == o.state
    {
      if !TokenSafe(State(), t) {
        return false;
      }
      ProcessToken(t);
      if !PendingSafe(State()) {
        return false;
      }
      ProcessPendingMacro();
      return true;
    }

    /** `write(chunk)`, processing at most `fuel` tokens and stopping before
        a step that would panic. */
    method Write(chunk: string, fuel: nat) returns (status: Status)
      requires Valid()
      modifies this, tokenizer
      ensures Valid()
      ensures Run(State(), status) == Expansion.Write(old(State()), chunk, fuel, rank)
    {
      tokenizer.Push(chunk);
      if !PendingSafe(State()) {
        return Panicked;
      }
      ProcessPendingMacro();
      var n := fuel;
      while true
        invariant Valid()
        invariant Resume(State(), n, rank) == Expansion.Write(old(State()), chunk, fuel, rank)
        decreases n
      {
        ghost var st := State();
        var token := tokenizer.Read();
        assert Resume(st, n, rank) == Loop(State(), token, n, rank);
        if token.None? {
          return Finished;
        }
        if n == 0 {
          return OutOfFuel;
        }
        var ok := Step(token.value);
        if !ok {
          return Panicked;
        }
        n := n - 1;
      }
    }
  }
}

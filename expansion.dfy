/** The `M4` controller as a state machine over values: macro table, stack
    of calls whose arguments are being collected, the pending macro name and
    the output. The `M4` class is proved against these functions. */
module Expansion {
  import opened Text
  import opened Substitution
  import opened LexerSpec

  /** One macro call: its name, its template and the arguments collected so
      far (`args[0]` is the name), with the depth of open parentheses inside
      the current argument. */
  datatype Macro = Macro(name: string, value: string, args: seq<string>, parens: nat)

  /** `Macro::new`. */
  function NewMacro(name: string, value: string): (m: Macro)
    ensures m.name == name && m.value == value
    ensures m.args == [name] && m.parens == 0
  {
    Macro(name, value, [name], 0)
  }

  /** The name of the one built-in macro. */
  const DefineName: string := "define"

  /** The fields of `M4`; `lex` is its tokenizer. */
  datatype Machine = Machine(
    lex: LexState,
    macros: map<string, string>,
    stack: seq<Macro>,
    pending: Option<Macro>,
    skip: bool,
    output: string)

  /** `M4::new()`. */
  const Start: Machine := Machine(LexerSpec.Initial, map[], [], None, false, "")

  /** A frame on the stack has its name as `args[0]` and at least one
      argument slot after it. */
  predicate FrameOk(m: Macro) {
    |m.args| >= 2 && m.args[0] == m.name
  }

  /** A pending macro has only its name as argument. */
  predicate PendingOk(m: Macro) {
    m.args == [m.name] && m.parens == 0
  }

  ghost predicate MInv(st: Machine) {
    LexInv(st.lex) &&
    (forall i :: 0 <= i < |st.stack| ==> FrameOk(st.stack[i])) &&
    (st.pending.Some? ==> PendingOk(st.pending.value))
  }

  lemma StartOk()
    ensures MInv(Start)
  {
  }

  function Top(stack: seq<Macro>): Macro
    requires stack != []
  {
    stack[|stack| - 1]
  }

  function SetTop(stack: seq<Macro>, m: Macro): (r: seq<Macro>)
    requires stack != []
    ensures |r| == |stack| && Top(r) == m && r[..|r| - 1] == stack[..|stack| - 1]
  {
    stack[..|stack| - 1] + [m]
  }

  // ---------------------------------------------------------------------
  // Calling a macro
  // ---------------------------------------------------------------------

  /** `define`: the table maps `name` to `value` and is otherwise unchanged. */
  function Define(macros: map<string, string>, name: string, value: string): (r: map<string, string>)
    ensures name in r && r[name] == value
    ensures forall k :: k != name ==> (k in r <==> k in macros)
    ensures forall k :: k in macros && k != name ==> r[k] == macros[k]
  {
    macros[name := value]
  }

  /** The call does not panic: `define` needs two arguments, and every
      placeholder of a template must name an argument. */
  predicate CallSafe(m: Macro) {
    if m.name == DefineName then |m.args| >= 3 else ExpandSafe(m.value, |m.args|)
  }

  /** The new macro table and the text of the expansion. */
  datatype Called = Called(macros: map<string, string>, text: string)

  /** `call_macro`: `define` registers its first argument with its second as
      template and expands to nothing; any other macro leaves the table alone
      and expands its template with its arguments. */
  function CallMacro(macros: map<string, string>, m: Macro, rank: Rank): (r: Called)
    requires CallSafe(m)
    ensures m.name == DefineName ==>
      r.text == [] && r.macros == Define(macros, m.args[1], m.args[2])
    ensures m.name != DefineName ==> r.macros == macros
    ensures m.name != DefineName && NoPlaceholders(m.value) ==> r.text == m.value
    ensures m.name != DefineName && SimpleTemplate(m.value) && NoDollar(m.args) ==>
      r.text == SubstAll(m.value, m.args)
  {
    if m.name == DefineName then Called(Define(macros, m.args[1], m.args[2]), "")
    else Called(macros, Expand(m.value, m.args, rank))
  }

  // ---------------------------------------------------------------------
  // The pending macro
  // ---------------------------------------------------------------------

  /** Resolving the pending macro does not panic. */
  predicate PendingSafe(st: Machine) {
    st.pending.Some? && st.lex.idx < |st.lex.source| && st.lex.source[st.lex.idx] != '(' ==>
      CallSafe(st.pending.value)
  }

  /** `start_macro_args`: read the `(`, then the pending macro becomes the
      top frame, with an empty first argument. */
  function StartMacroArgs(st: Machine): (r: Machine)
    requires MInv(st)
    ensures MInv(r)
  {
    var lex := Read(st.lex).state;
    match st.pending
    case None => st.(lex := lex)
    case Some(m) =>
      st.(lex := lex, stack := st.stack + [m.(args := m.args + [""])], pending := None, skip := true)
  }

  /** `process_pending_macro`: with a `(` next, the pending macro starts
      collecting arguments; with another character next it is called at once
      and its expansion is put in front of the input; with no input left it
      stays pending. */
  function ProcessPendingMacro(st: Machine, rank: Rank): (r: Machine)
    requires MInv(st) && PendingSafe(st)
    ensures MInv(r)
  {
    if st.pending.None? then st
    else match Peek(st.lex)
      case None => st
      case Some(ch) =>
        if ch == '(' then StartMacroArgs(st)
        else
          var c := CallMacro(st.macros, st.pending.value, rank);
          st.(lex := Unshift(st.lex, c.text), macros := c.macros, pending := None)
  }

  // ---------------------------------------------------------------------
  // Tokens
  // ---------------------------------------------------------------------

  /** `push_output`. */
  function PushOutput(st: Machine, text: string): Machine {
    st.(output := st.output + text)
  }

  /** Appends `text` to the last argument of the top frame. */
  function AppendArg(st: Machine, text: string): (r: Machine)
    requires st.stack != []
    ensures MInv(st) ==> MInv(r)
  {
    var m := Top(st.stack);
    if |m.args| == 0 then st
    else st.(stack := SetTop(st.stack, m.(args := m.args[..|m.args| - 1] + [m.args[|m.args| - 1] + text])))
  }

  /** The literal is a `)` that closes the top frame's call. */
  predicate Closes(st: Machine, t: Token) {
    st.stack != [] && t.value == ")" && Top(st.stack).parens == 0
  }

  /** Processing the literal does not panic. */
  predicate LiteralSafe(st: Machine, t: Token) {
    Closes(st, t) ==> CallSafe(Top(st.stack))
  }

  /** Processing the token does not panic: only a literal can close a call. */
  predicate TokenSafe(st: Machine, t: Token) {
    t.kind == LiteralToken ==> LiteralSafe(st, t)
  }

  /** `process_literal_in_macro`: the state after a literal inside a call,
      and whether the literal has been fully dealt with. */
  function ProcessLiteralInMacro(st: Machine, t: Token, rank: Rank): (r: (Machine, bool))
    requires MInv(st) && LiteralSafe(st, t)
    ensures MInv(r.0)
  {
    if st.stack == [] then (st, false)
    else
      var m := Top(st.stack);
      if t.value == ")" then
        if m.parens == 0 then
          var popped := st.(stack := st.stack[..|st.stack| - 1]);
          var c := CallMacro(popped.macros, m, rank);
          (popped.(lex := Unshift(popped.lex, c.text), macros := c.macros), true)
        else (st.(stack := SetTop(st.stack, m.(parens := m.parens - 1))), false)
      else if t.value == "(" then
        (st.(stack := SetTop(st.stack, m.(parens := m.parens + 1))), false)
      else if t.value == "," && m.parens == 0 then
        (st.(stack := SetTop(st.stack, m.(args := m.args + [""])), skip := true), true)
      else (st, false)
  }

  /** Whether `t` names a macro: a key of the table, or `define`. */
  predicate IsMacroName(st: Machine, t: Token) {
    t.kind == NameToken && (t.value in st.macros || t.value == DefineName)
  }

  /** The token is white space that `process_token` drops because it follows
      the `(` or a `,` of a call. */
  predicate Skipped(st: Machine, t: Token) {
    st.skip && t.kind == LiteralToken && AllWhitespace(t.value)
  }

  /** `process_token`: drop skipped white space; a macro name becomes the
      pending macro; outside any call the token is output; inside a call it
      is a `(`, `)` or `,` handled by `ProcessLiteralInMacro` or is added to
      the current argument. */
  function ProcessToken(st: Machine, t: Token, rank: Rank): (r: Machine)
    requires MInv(st) && TokenSafe(st, t)
    ensures MInv(r)
  {
    if Skipped(st, t) then st
    else
      var st1 := st.(skip := false);
      if IsMacroName(st, t) then
        st1.(pending := Some(NewMacro(t.value, if t.value in st.macros then st.macros[t.value] else "")))
      else if st.stack == [] then PushOutput(st1, t.value)
      else if t.kind == LiteralToken then
        var (st2, handled) := ProcessLiteralInMacro(st1, t, rank);
        if handled then st2 else AppendArg(st2, t.value)
      else AppendArg(st1, t.value)
  }

  // ---------------------------------------------------------------------
  // The driver loop
  // ---------------------------------------------------------------------

  /** How a run of `write` ended: the input was used up, the fuel ran out,
      or the next step would panic. */
  datatype Status = Finished | OutOfFuel | Panicked

  datatype Run = Run(state: Machine, status: Status)

  /** One token's worth of the loop of `write`: process the token, then the
      macro it may have left pending; or the state in which the next of
      these would panic. */
  datatype Outcome = Next(state: Machine) | Panic(state: Machine)

  function Step(st: Machine, t: Token, rank: Rank): (r: Outcome)
    requires MInv(st)
    ensures MInv(r.state)
  {
    if !TokenSafe(st, t) then Panic(st)
    else
      var st1 := ProcessToken(st, t, rank);
      if !PendingSafe(st1) then Panic(st1) else Next(ProcessPendingMacro(st1, rank))
  }

  /** The loop of `write`, with `tok` the token just read; at most `fuel`
      tokens are processed. */
  function Loop(st: Machine, tok: Option<Token>, fuel: nat, rank: Rank): (r: Run)
    requires MInv(st)
    ensures MInv(r.state)
    decreases fuel, 1
  {
    match tok
    case None => Run(st, Finished)
    case Some(t) =>
      if fuel == 0 then Run(st, OutOfFuel)
      else match Step(st, t, rank)
        case Panic(st1) => Run(st1, Panicked)
        case Next(st1) => Resume(st1, fuel - 1, rank)
  }

  /** Read the next token and go on with the loop. */
  function Resume(st: Machine, fuel: nat, rank: Rank): (r: Run)
    requires MInv(st)
    ensures MInv(r.state)
    decreases fuel, 2
  {
    var n := Read(st.lex);
    Loop(st.(lex := n.state), n.token, fuel, rank)
  }

  /** `write(chunk)`: push the chunk, resolve a macro left pending by the
      previous chunk, then process tokens until none is left. */
  function Write(st: Machine, chunk: string, fuel: nat, rank: Rank): (r: Run)
    requires MInv(st)
    ensures MInv(r.state)
  {
    var st1 := st.(lex := Push(st.lex, chunk));
    if !PendingSafe(st1) then Run(st1, Panicked)
    else
      Resume(ProcessPendingMacro(st1, rank), fuel, rank)
  }
}

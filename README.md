# m4-rs in Dafny

A model of the m4-style macro expander of `src/main.rs`, with proofs. The
expander reads text chunk by chunk, cuts it into tokens, recognises calls of
macros defined with the built-in `define`, and collects their arguments. It
expands each call by positional substitution of `$<digits>` placeholders and
puts the expansion back in front of the unread input, so it is scanned again.

The model follows the structure of the program:

- `Text` (`text.dfy`): characters. `IsNameChar` is `is_literal_char`; the
  quote characters are `` ` `` and `'`; `AllWhitespace` is
  `str::trim().is_empty()`, which holds for the Unicode White_Space set.
- `Substitution` (`substitution.dfy`): `expand`, as pure functions.
  - `Matches` finds the matches of `\$[0-9]+`.
  - `Distinct` is the hash set they are collected into.
  - `VisitOrder` is the order in which the loop visits that set, fixed by a
    `Rank` that stands for the hasher.
  - `Replace` is `str::replace`, and `ReplaceAll` is the loop.
  - `SubstAll` is an independent one-pass reference substitution.
- `LexerSpec` (`lexer_spec.dfy`): the tokenizer as a state machine over
  values (`LexState`), with the invariant `LexInv` it keeps and the lemmas
  about what `read` returns.
- `Lexer` (`tokenizer.dfy`): the class `Tokenizer`, whose fields are updated
  in place. Every method is proved against its counterpart in `LexerSpec`,
  and `Read` keeps the loop of the source.
- `Expansion` (`expansion.dfy`): the `M4` controller as a state machine over
  values (`Machine`), including the loop of `write` with fuel.
- `Controller` (`m4.dfy`): the class `M4`, proved method by method against
  `Expansion`. `Write` keeps the loop of the source.
- `ExpansionFacts` (`expansion_facts.dfy`): what each kind of token does to
  the state, and what every run of `write` preserves.
- `Scenarios` (`scenarios.dfy`): `expand` on the template of `exch`, and an
  input on which the visiting order of the placeholders shows.
- `Runs` (`runs.dfy`) and `ExchRun` (`exch_run.dfy`): whole runs of `write`
  on the two inputs the program ships with, token by token, for every hash
  order.

Where the code departs from the documented intent of the expander, the model
follows the code:

- `expand` replaces one placeholder after the other in the growing result. A
  replacement that itself contains a placeholder can therefore be replaced
  again, and the result can depend on the hash order
  (`Scenarios.ExpandDependsOnOrder`). The one-pass result is proved only
  where the two agree (`Substitution.Expand`).
- A placeholder naming a missing argument, and `define` with fewer than two
  arguments, panic. Nothing reports them as errors.
- There is no end-of-input step. A name at the very end of the input stays
  in the buffer, and an unterminated string or call is never reported.
- Trailing white space of an argument is kept. Only white space right after
  the `(` or a `,` is dropped (`ArgLiteral`, `ExpansionFacts.SkipEnds`).
- A macro can be pending while calls are open, when a macro name occurs
  inside an argument.

## Model

| member | source | states |
|---|---|---|
| Text.IsNameChar | src/main.rs:72-74 | defined as the ASCII letters and `_`; `LexerSpec.ReadName` states that a name token is a longest run of them |
| Text.AllWhitespace | src/main.rs:280 | defined as every character having the Unicode White_Space property, so `trim()` leaves nothing; `ExpansionFacts.SkipDropsWhitespace` states its use |
| Substitution.Index | src/main.rs:56 | defined as the decimal value of the digits after `$`; `Substitution.ScanPlaceholder` states that `$d` names argument `d` |
| Substitution.DigitRun | src/main.rs:49 | the length of the leading run of digits: every character before it is a digit, and the next one, if any, is not |
| Substitution.Matches | src/main.rs:49-52 | every match found is a `$` followed by one or more digits |
| Substitution.MatchesEmpty | src/main.rs:49-52 | a template has no match exactly when no `$` in it is directly followed by a digit |
| Substitution.ScanOther | src/main.rs:49-57 | a character other than `$` is passed over by the scan and copied unchanged by the substitution |
| Substitution.ScanPlaceholder | src/main.rs:49-57 | `$d` followed by a non-digit is a match naming argument `d`, and is replaced by `args[d]` |
| Substitution.Distinct | src/main.rs:50-52 | the collected set holds exactly the matches, each once |
| Substitution.VisitOrder | src/main.rs:50-55 | the loop visits every distinct placeholder exactly once, and nothing else, in increasing rank |
| Substitution.ReplaceCons | src/main.rs:57 | a character that cannot start the pattern passes through `replace` |
| Substitution.ReplaceSkip | src/main.rs:57 | text without the first character of the pattern passes through `replace` |
| Substitution.Replace | src/main.rs:57 | defined as `str::replace`, left to right without overlap; `ReplaceCons`, `ReplaceSkip` and `ReplaceStep` state what it does to templates |
| Substitution.ReplaceAll | src/main.rs:55-59 | defined as the loop over a visiting order; `ReplaceAllPartial` and `ReplaceAllIsSubstitution` state its result |
| Substitution.PartialNone | src/main.rs:54 | before the loop nothing is replaced: the result is the template |
| Substitution.SimpleMatches | src/main.rs:49-52 | in a simple template every match is `$` and one digit |
| Substitution.ReplaceStep | src/main.rs:55-58 | one pass of the loop replaces every occurrence of one more placeholder, and only those |
| Substitution.ReplaceAllPartial | src/main.rs:55-59 | the loop, in any order, replaces exactly the occurrences of the placeholders it visits |
| Substitution.PartialAll | src/main.rs:55-59 | once every placeholder has been visited, the result is the one-pass substitution |
| Substitution.ReplaceAllIsSubstitution | src/main.rs:55-59 | for a simple template and arguments without `$`, the loop gives the one-pass substitution whatever the visiting order, and never indexes outside `args` |
| Substitution.VisitOrderSafe | src/main.rs:56-57 | if every placeholder names an argument, no visited placeholder makes `args[idx_int]` panic |
| Substitution.ExpandFacts | src/main.rs:48-61 | `expand` is safe, leaves a template without placeholders alone, and agrees with the one-pass substitution on simple templates |
| Substitution.Expand | src/main.rs:48-61 | a template without placeholders is returned unchanged; for single-digit placeholders and arguments without `$` every `$d` is replaced by `args[d]`; every index must name an argument |
| LexerSpec.DepthSnoc | src/main.rs:196-200 | an opening quote adds one to the depth and a closing quote takes one away |
| LexerSpec.BalancedSnoc | src/main.rs:196-201 | a buffer whose depth stays non-negative stays balanced as characters are added |
| LexerSpec.Flush | src/main.rs:88-91 | the unread input is unchanged and the cursor is 0; buffer, depth and mode are unchanged |
| LexerSpec.Push | src/main.rs:93-96 | the unread input becomes the old unread input followed by the chunk; cursor 0; buffer, depth and mode unchanged; the invariant is kept |
| LexerSpec.Unshift | src/main.rs:98-103 | the unread input becomes the text followed by the old unread input; cursor 0; buffer, depth and mode unchanged; the invariant is kept |
| LexerSpec.Peek | src/main.rs:105-110 | a character exactly when unread input is left, and then the first unread character |
| LexerSpec.GetToken | src/main.rs:140-148 | the token has the given kind and holds the buffer; the buffer is emptied and the mode is back to between tokens; input, cursor and depth are unchanged |
| LexerSpec.ReadTokenStep | src/main.rs:150-173 | the step between tokens; `ReadTokenStepOk` states its meaning |
| LexerSpec.ReadNameStep | src/main.rs:175-188 | the step inside a name; `ReadNameStepOk` states its meaning |
| LexerSpec.ReadStringStep | src/main.rs:190-208 | the step inside a string; `ReadStringStepOk` states its meaning |
| LexerSpec.ReadNext | src/main.rs:132-138 | dispatches on the mode to one of the three steps; `ReadNextStep` states that every step continues or completes a well-formed token |
| LexerSpec.ReadTokenStepOk | src/main.rs:150-173 | between tokens, a name character or a `` ` `` starts a token and is captured; any other character is a one-character literal that is consumed |
| LexerSpec.ReadNameStepOk | src/main.rs:175-188 | in a name, a name character is added; any other character ends the name and is not consumed |
| LexerSpec.ReadStringStepOk | src/main.rs:190-208 | in a string the depth is at least 1, so the decrement never underflows; the `'` that brings it to 0 is consumed and dropped, and the string is balanced |
| LexerSpec.ReadNextStep | src/main.rs:132-138 | every step from a valid state either continues the token, keeping the invariant, or completes a well-formed token spelled by the input |
| LexerSpec.Read | src/main.rs:112-130 | the state after `read` keeps the invariant: empty buffer and depth 0 between tokens, depth at least 1 in a string |
| LexerSpec.ReadUnfold | src/main.rs:113-123 | one pass of the loop of `read`: the step either completes the token `read` returns, or `read` goes on one character later |
| LexerSpec.CompletesIsReadOk | src/main.rs:119-121 | a token completed by a step is a correct result of `read` |
| LexerSpec.ContinuesExhausted | src/main.rs:113-123 | a step that completes nothing, followed by the input running out, has captured all the unread input |
| LexerSpec.ContinuesEmitted | src/main.rs:113-123 | a step that completes nothing, followed by a token, spells that token from the earlier state |
| LexerSpec.ContinuesThenReadOk | src/main.rs:113-123 | a correct result after a step that completed nothing is correct before it |
| LexerSpec.ReadSpec | src/main.rs:112-208 | `read` returns no token only with the cursor at the end and every unread character captured. A token it returns is well formed: a literal is one character, neither a name character nor `` ` ``, and advances the cursor one; a name is a non-empty run of name characters whose ending character is not consumed; a string is balanced with depth 0. The token is spelled by exactly the input consumed |
| LexerSpec.StringTokenStrips | src/main.rs:163-168 | a string token read between tokens is the text between its outer `` ` `` and `'` |
| LexerSpec.ReadLiteral | src/main.rs:150-171 | between tokens, a character that starts neither a name nor a string is read at once as a one-character literal |
| LexerSpec.ReadNoneAtEnd | src/main.rs:112-130 | `read` returns no token only when no unread input is left |
| LexerSpec.ReadNameRest | src/main.rs:175-188 | inside a name, the rest of the run of name characters is read and the name stops in front of the first other character |
| LexerSpec.ReadName | src/main.rs:156-161 | between tokens, a run of name characters is read as one name, the longest one, and the character after it is not consumed |
| LexerSpec.ReadStringRest | src/main.rs:190-208 | inside a string at depth 1, text without quotes is taken up to the closing quote, which ends the token |
| LexerSpec.ReadQuoted | src/main.rs:163-168 | between tokens, a quoted string without inner quotes is read as one string token holding the text between the quotes |
| LexerSpec.ReadFlatString | src/main.rs:163-168 | the same for a given text between the quotes |
| Lexer.Tokenizer.constructor | src/main.rs:77-86 | a new tokenizer has no input, an empty buffer, depth 0 and is between tokens |
| Lexer.Tokenizer.Flush | src/main.rs:88-91 | the fields become those of `LexerSpec.Flush` of the old fields |
| Lexer.Tokenizer.Push | src/main.rs:93-96 | the unread input gains the chunk at its end, the cursor is 0, and buffer, depth and mode are unchanged |
| Lexer.Tokenizer.Unshift | src/main.rs:98-103 | the unread input gains the text at its front, the cursor is 0, and buffer, depth and mode are unchanged |
| Lexer.Tokenizer.PeekChar | src/main.rs:105-110 | a character exactly when unread input is left, and then the character under the cursor |
| Lexer.Tokenizer.GetToken | src/main.rs:140-148 | the token holds the buffer with the given kind; the buffer is emptied and the mode is back to between tokens |
| Lexer.Tokenizer.ReadToken | src/main.rs:150-173 | the fields and the result are those of the between-tokens step |
| Lexer.Tokenizer.ReadName | src/main.rs:175-188 | the fields and the result are those of the in-name step |
| Lexer.Tokenizer.ReadString | src/main.rs:190-208 | the fields and the result are those of the in-string step |
| Lexer.Tokenizer.ReadNext | src/main.rs:132-138 | dispatches on the mode to the step of that mode |
| Lexer.Tokenizer.Read | src/main.rs:112-130 | the loop keeps the invariant and computes `LexerSpec.Read`; with no token the cursor is at the end of the unchanged input |
| Expansion.NewMacro | src/main.rs:36-46 | a new macro carries its name and template, has its name as its only argument and no open parenthesis |
| Expansion.Define | src/main.rs:232-234 | the name maps to the new template, overwriting any old one; every other entry is unchanged |
| Expansion.StartOk | src/main.rs:221-230 | a new controller satisfies the invariant |
| Expansion.CallMacro | src/main.rs:236-242 | `define` registers its first argument with its second as template and expands to nothing; any other macro leaves the table alone and expands its template with its arguments |
| Expansion.StartMacroArgs | src/main.rs:264-276 | opening the argument list keeps the invariant: every frame has its name as argument 0 and a slot being collected |
| Expansion.ProcessPendingMacro | src/main.rs:244-262 | resolving the pending macro keeps the invariant |
| Expansion.PushOutput | src/main.rs:320-322 | the output gains the text at its end; `ExpansionFacts.OutputWhenIdle` states when a token goes there |
| Expansion.AppendArg | src/main.rs:313-317 | appending to the current argument keeps the invariant |
| Expansion.ProcessLiteralInMacro | src/main.rs:324-352 | handling `(`, `)` and `,` inside a call keeps the invariant |
| Expansion.ProcessToken | src/main.rs:278-318 | processing a token keeps the invariant |
| Expansion.Step | src/main.rs:362-363 | one pass of the loop of `write` keeps the invariant |
| Expansion.Loop | src/main.rs:358-365 | the loop of `write` keeps the invariant |
| Expansion.Resume | src/main.rs:357-365 | reading the next token and looping keeps the invariant |
| Expansion.Write | src/main.rs:354-367 | `write` keeps the invariant |
| ExpansionFacts.AppendArgFacts | src/main.rs:313-317 | only the last argument of the top frame changes, by the text being added at its end |
| ExpansionFacts.SkipDropsWhitespace | src/main.rs:279-283 | white space right after the `(` or a `,` of a call changes nothing |
| ExpansionFacts.SkipEnds | src/main.rs:279-285 | a token that is not skipped ends skipping, unless it is a comma that starts another argument |
| ExpansionFacts.NameBecomesPending | src/main.rs:287-299 | a macro name, inside a call or not, becomes the pending macro with its template (empty for `define`); nothing is output or added to an argument |
| ExpansionFacts.OutputWhenIdle | src/main.rs:301-304 | outside every call, any other token is added to the output as it is; a string without its outer quotes |
| ExpansionFacts.OpenParenNests | src/main.rs:340-343 | inside a call, `(` opens one more level and is kept in the argument |
| ExpansionFacts.CloseParenNested | src/main.rs:337-339 | inside a call, `)` with open levels closes one and is kept in the argument, so the depth never goes negative |
| ExpansionFacts.CommaSplits | src/main.rs:344-349 | a `,` at depth 0 starts a new empty argument, is not kept, and starts skipping |
| ExpansionFacts.CloseParenCalls | src/main.rs:330-336 | the `)` at depth 0 pops exactly the top frame, leaves the rest of the stack intact, and puts the call's expansion in front of the unread input |
| ExpansionFacts.OtherTokenAppends | src/main.rs:307-317 | inside a call, every other token, including a comma inside parentheses, is added to the current argument and nothing else changes |
| ExpansionFacts.PendingWaits | src/main.rs:244-251 | with no pending macro or no unread input nothing happens |
| ExpansionFacts.PendingOpensFrame | src/main.rs:253-255 | a pending macro followed by `(` consumes it; a frame with arguments `[name, ""]` and depth 0 is pushed, nothing is pending and skipping starts |
| ExpansionFacts.PendingCallsNow | src/main.rs:257-261 | a pending macro followed by anything else is called with no arguments, its expansion goes in front of the unread input, and the stack is unchanged |
| ExpansionFacts.ProcessTokenGrows | src/main.rs:278-318 | processing a token never takes back output or removes a macro |
| ExpansionFacts.ProcessPendingGrows | src/main.rs:244-262 | resolving the pending macro never takes back output or removes a macro |
| ExpansionFacts.StepGrows | src/main.rs:362-363 | one pass of the loop never takes back output or removes a macro |
| ExpansionFacts.LoopGrows | src/main.rs:358-365 | the loop of `write` never takes back output or removes a macro |
| ExpansionFacts.WriteGrows | src/main.rs:354-367 | `write` never takes back output or removes a macro |
| ExpansionFacts.FinishedNext | src/main.rs:358-365 | a run that finishes after reading a token processed it and read on, and a `None` from `read` means the input is used up |
| ExpansionFacts.ResumeConsumesAll | src/main.rs:357-365 | a run of the loop that finishes has consumed its whole input |
| ExpansionFacts.WriteConsumesAll | src/main.rs:354-367 | a call of `write` that finishes leaves no unread input |
| Controller.M4.constructor | src/main.rs:221-230 | a new controller has nothing pending, no frames, no output, an empty table and a new tokenizer |
| Controller.M4.Define | src/main.rs:232-234 | the table becomes `Expansion.Define` of the old one; nothing else changes |
| Controller.M4.CallMacro | src/main.rs:236-242 | returns the expansion of `Expansion.CallMacro`, and the table becomes the one it gives |
| Controller.M4.ProcessPendingMacro | src/main.rs:244-262 | the new state is `Expansion.ProcessPendingMacro` of the old one |
| Controller.M4.StartMacroArgs | src/main.rs:264-276 | the new state is `Expansion.StartMacroArgs` of the old one |
| Controller.M4.ProcessToken | src/main.rs:278-318 | the new state is `Expansion.ProcessToken` of the old one |
| Controller.M4.AppendArg | src/main.rs:313-317 | the last argument of the top frame gains the text |
| Controller.M4.PushOutput | src/main.rs:320-322 | the output gains the text at its end and nothing else changes |
| Controller.M4.ProcessLiteralInMacro | src/main.rs:324-352 | the new state and the answer are those of `Expansion.ProcessLiteralInMacro` |
| Controller.M4.Step | src/main.rs:362-363 | processes the token and the macro it may have left pending, or reports the panic, as `Expansion.Step` does |
| Controller.M4.Write | src/main.rs:354-367 | the loop keeps the invariant and ends in the state and status of `Expansion.Write` |
| Scenarios.ExchSwaps | src/main.rs:377-378 | the template `$2, $1` with arguments `exch`, `arg1`, `arg2` expands to `arg2, arg1` for every hash order |
| Scenarios.VisitTwo | src/main.rs:50-55 | with two placeholders, the one of lower rank is visited first |
| Scenarios.ExpandDependsOnOrder | src/main.rs:50-59 | with an argument that contains a placeholder, two hash orders give two different expansions of the same call |
| Scenarios.PlaceholdersDollarOneTwo | src/main.rs:49-52 | `$$1$2` has just the single-digit placeholders `$1` and `$2`, yet is not a simple template |
| Scenarios.DollarArgsPlain | src/main.rs:48 | the arguments `m`, `2x`, `y` hold no `$` |
| Scenarios.DollarDependsOnOrder | src/main.rs:50-59 | with those arguments, `$$1$2` expands to `yxy` when `$1` is visited first and to `$2xy` when `$2` is: replacing `$1` makes the leading `$` a new placeholder |
| Runs.TraceResume | src/main.rs:357-365 | along a sequence of states in which each moves to the next with one token, the loop of `write` goes from the first to the last |
| Runs.IdleLiteral | src/main.rs:301-304 | outside any call, a literal is read and added to the output |
| Runs.IdleName | src/main.rs:301-304 | outside any call, a name that is not a macro is read and added to the output |
| Runs.CallOpens | src/main.rs:244-276 | outside any call, a macro name followed by `(` opens a frame and starts skipping |
| Runs.ArgAppend | src/main.rs:307-317 | inside a call, a token that is not `(`, `)`, `,` or a macro name is added to the argument |
| Runs.ArgString | src/main.rs:307-317 | inside a call, a quoted string without inner quotes, read as one token by `read_string` (src/main.rs:190-208), is added to the argument without its quotes |
| Runs.ArgName | src/main.rs:313-317 | inside a call, a name that is not a macro is added to the argument |
| Runs.ArgLiteral | src/main.rs:307-317 | inside a call, a literal other than `(`, `)`, `,` is added unless it is white space being skipped; trailing white space is kept |
| Runs.ArgSkip | src/main.rs:279-283 | inside a call, white space right after `(` or `,` is dropped |
| Runs.ArgComma | src/main.rs:344-349 | inside a call, a `,` ends the argument and starts the next one |
| Runs.ArgClose | src/main.rs:330-336 | the closing `)` calls the macro with the collected arguments and the expansion is read next |
| Runs.CallsNow | src/main.rs:257-261 | outside any call, a macro name not followed by `(` is called with no arguments and its expansion is read next |
| Runs.HelloWorld | src/main.rs:370-375 | `write` of the first input on a new controller finishes with output `"\n\nHello world.\n"` and `foo` defined, for every hash order |
| ExchRun.ExchWorld | src/main.rs:376-379 | `write` of the second input on a new controller finishes with output `"\n\narg2, arg1\n"` and `exch` defined, for every hash order |

## Left out

- `main` and its printing (src/main.rs:382-392) are console I/O. The two `INPUTS` serve only as the inputs of `Runs.HelloWorld` and `ExchRun.ExchWorld`.
- The `end` flag, the `END` token and the `None` character of `read_next` (src/main.rs:125-129, 151-154, 176-178, 191-193) are unreachable, because nothing sets `end`. The model has no `end` field, so a name at the very end of the input simply stays in the buffer.
- The unreachable `continue` branches (src/main.rs:114-117, 359-361) are not modelled.
- The `regex` crate is not used. Matching `\$[0-9]+` is written out directly as `Substitution.Matches`.
- The iteration order of the `HashSet` in `expand` is a parameter `rank` (`Controller.M4.rank`). It is given the placeholders in order of first occurrence, and ties are broken in that order. One `rank` serves every call of a controller. The source builds a fresh, randomly seeded set on every call (src/main.rs:50-52), so there two calls of one template can visit its placeholders in different orders; the model does not cover that. `Runs.HelloWorld` and `ExchRun.ExchWorld` hold for every rank, and their expansions do not depend on the order.
- Substitution.Expand: a placeholder whose digits overflow `usize` is skipped by the source. The model requires, like every other placeholder, that it name an argument.
- Substitution.Expand: the one-pass result is stated only for single-digit placeholders, no `$$`, and arguments without `$`. Outside that, the result depends on the hash order, and only the definition is given. `Scenarios.ExpandDependsOnOrder` shows this for an argument holding a placeholder, and `Scenarios.DollarDependsOnOrder` for a `$` right before a placeholder, with arguments free of `$`.
- `parens` is an `i32` in the source and a `nat` here. It cannot go negative, since it is decremented only above 0; overflow past 2^31 is not modelled.
- Text is `seq<char>`, and every character is taken to be one byte. On non-ASCII input the source mixes byte lengths with character indices (src/main.rs:89, 109, 113, 203).
- Expansion.Write, Controller.M4.Write: termination is not proved, because a macro that expands to its own name loops forever. The loop processes at most `fuel` tokens and then stops with `OutOfFuel`.
- Expansion.Write, Controller.M4.Write: where the source panics, the model stops with `Panicked` before the step. That covers `define` with fewer than two arguments (src/main.rs:238) and a placeholder naming a missing argument (src/main.rs:57). The single step functions and methods take the absence of a panic as a precondition.
- The example `m( a , b )` with template `$1|$2` is not run end to end. The rules it depends on are proved in general: `Runs.ArgSkip` drops leading white space and `Runs.ArgLiteral` keeps trailing white space.

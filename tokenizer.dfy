/** The `Tokenizer` object: a mutable input buffer with a cursor, read one
    token at a time. Each method is proved against its counterpart in
    LexerSpec. */
module Lexer {
  import opened Text
  import opened LexerSpec

  class Tokenizer {
    var source: string
    var idx: nat
    var buffer: string
    var quotes: nat
    var readType: ReadType

    function State(): LexState
      reads this
    {
      LexState(source, idx, buffer, quotes, readType)
    }

    ghost predicate Valid()
      reads this
    {
      LexInv(State())
    }

    constructor ()
      ensures State() == Initial && Valid()
    {
      source := "";
      idx := 0;
      buffer := "";
      quotes := 0;
      readType := TokenMode;
    }

    method Flush()
      requires idx <= |source|
      modifies this
      ensures State() == LexerSpec.Flush(old(State()))
    {
      source := source[idx..];
      idx := 0;
    }

    /** Appends `st` after the unread input. */
    method Push(st: string)
      requires idx <= |source|
      modifies this
      ensures State() == LexerSpec.Push(old(State()), st)
      ensures idx == 0 && Unconsumed(State()) == Unconsumed(old(State())) + st
      ensures buffer == old(buffer) && quotes == old(quotes) && readType == old(readType)
    {
      Flush();
      source := source + st;
    }

    /** Puts `st` in front of the unread input, so it is read next. */
    method Unshift(st: string)
      requires idx <= |source|
      modifies this
      ensures State() == LexerSpec.Unshift(old(State()), st)
      ensures idx == 0 && Unconsumed(State()) == st + Unconsumed(old(State()))
      ensures buffer == old(buffer) && quotes == old(quotes) && readType == old(readType)
    {
      Flush();
      source := st + source;
    }

    /** The next unread character, if there is one. */
    method PeekChar() returns (c: Option<char>)
      requires idx <= |source|
      ensures c.Some? <==> idx < |source|
      ensures c.Some? ==> c.value == source[idx]
    {
      if |source| == 0 {
        return None;
      }
      if idx < |source| {
        c := Some(source[idx]);
      } else {
        c := None;
      }
    }

    method GetToken(kind: TokenType) returns (t: Token)
      modifies this
      ensures Stepped(State(), Some(t)) == LexerSpec.GetToken(old(State()), kind)
    {
      t := Token(kind, buffer);
      readType := TokenMode;
      buffer := "";
    }

    method ReadToken(c: char) returns (t: Option<Token>)
      modifies this
      ensures Stepped(State(), t) == ReadTokenStep(old(State()), c)
    {
      buffer := buffer + [c];
      if IsNameChar(c) {
        readType := NameMode;
        return None;
      }
      if c == LeftQuote {
        readType := StringMode;
        quotes := quotes + 1;
        buffer := "";
        return None;
      }
      idx := idx + 1;
      var tok := GetToken(LiteralToken);
      return Some(tok);
    }

    method ReadName(c: char) returns (t: Option<Token>)
      modifies this
      ensures Stepped(State(), t) == ReadNameStep(old(State()), c)
    {
      if !IsNameChar(c) {
        var tok := GetToken(NameToken);
        return Some(tok);
      }
      buffer := buffer + [c];
      return None;
    }

    method ReadString(c: char) returns (t: Option<Token>)
      requires c == RightQuote ==> quotes >= 1
      modifies this
      ensures Stepped(State(), t) == ReadStringStep(old(State()), c)
    {
      buffer := buffer + [c];
      if c == LeftQuote {
        quotes := quotes + 1;
      } else if c == RightQuote {
        quotes := quotes - 1;
        if quotes == 0 {
          idx := idx + 1;
          buffer := buffer[..|buffer| - 1];
          var tok := GetToken(StringToken);
          return Some(tok);
        }
      }
      return None;
    }

    method ReadNext(c: char) returns (t: Option<Token>)
      requires readType == StringMode && c == RightQuote ==> quotes >= 1
      modifies this
      ensures Stepped(State(), t) == LexerSpec.ReadNext(old(State()), c)
    {
      match readType {
        case TokenMode => t := ReadToken(c);
        case NameMode => t := ReadName(c);
        case StringMode => t := ReadString(c);
      }
    }

    /** Feeds characters to `ReadNext` until a token is complete or the input
        runs out. No token means the whole input has been consumed. */
    method Read() returns (t: Option<Token>)
      requires Valid()
      modifies this
      ensures Valid()
      ensures Stepped(State(), t) == LexerSpec.Read(old(State()))
      ensures t.None? ==> idx == |source| && source == old(source)
    {
      while idx < |source|
        invariant Valid() && source == old(source)
        invariant LexerSpec.Read(State()) == LexerSpec.Read(old(State()))
        decreases |source| - idx
      {
        ReadUnfold(State());
        var tok := ReadNext(source[idx]);
        if tok.Some? {
          return tok;
        }
        idx := idx + 1;
      }
      t := None;
    }
  }
}

/** The whole run of `write` on the second input the program ships with,
    which defines `exch` and calls it with two arguments, for every hash
    order. */
module ExchRun {
  import opened Text
  import opened Substitution
  import opened LexerSpec
  import opened Expansion
  import opened Scenarios
  import opened Runs

  const ExchInput: string := "\ndefine(`exch', `$2, $1')\nexch(arg1, arg2)\n"

  /** What the second input spells out, character by character. Digits are
      no name characters, so `arg1` is read as the name `arg` and the
      literal `1`. */
  ghost predicate ExchShape(src: string) {
    |src| == 43 && src[0] == '\n' && Spells(src, 1, DefineName) && src[7] == '(' &&
    src[8] == LeftQuote && Spells(src, 9, "exch") && src[13] == RightQuote && src[14] == ',' &&
    src[15] == ' ' && src[16] == LeftQuote && Spells(src, 17, "$2, $1") && src[23] == RightQuote &&
    src[24] == ')' && src[25] == '\n' && Spells(src, 26, "exch") && src[30] == '(' &&
    Spells(src, 31, "arg") && src[34] == '1' && src[35] == ',' && src[36] == ' ' &&
    Spells(src, 37, "arg") && src[40] == '2' && src[41] == ')' && src[42] == '\n'
  }

  lemma ExchInputDefine()
    ensures |ExchInput| == 43 && ExchInput[0] == '\n' && Spells(ExchInput, 1, DefineName)
    ensures ExchInput[7] == '('
  {
  }

  lemma ExchInputName()
    ensures |ExchInput| == 43 && ExchInput[8] == LeftQuote && Spells(ExchInput, 9, "exch")
    ensures ExchInput[13] == RightQuote && ExchInput[14] == ',' && ExchInput[15] == ' '
  {
  }

  lemma ExchInputMiddle()
    ensures |ExchInput| == 43 && ExchInput[16] == LeftQuote && Spells(ExchInput, 17, "$2, $1")
    ensures ExchInput[23] == RightQuote && ExchInput[24] == ')' && ExchInput[25] == '\n'
    ensures Spells(ExchInput, 26, "exch") && ExchInput[30] == '('
  {
  }

  lemma ExchInputTail()
    ensures |ExchInput| == 43 && Spells(ExchInput, 31, "arg") && ExchInput[34] == '1'
    ensures ExchInput[35] == ',' && ExchInput[36] == ' ' && Spells(ExchInput, 37, "arg")
    ensures ExchInput[40] == '2' && ExchInput[41] == ')' && ExchInput[42] == '\n'
  {
  }

  lemma ExchInputShape()
    ensures ExchShape(ExchInput)
  {
    ExchInputDefine();
    ExchInputName();
    ExchInputMiddle();
    ExchInputTail();
  }

  /** The template of `exch` holds no quote. */
  lemma ExchTemplateFlat()
    ensures forall i :: 0 <= i < |"$2, $1"| ==> "$2, $1"[i] != LeftQuote && "$2, $1"[i] != RightQuote
  {
    var v := "$2, $1";
    forall i | 0 <= i < |v| ensures v[i] != LeftQuote && v[i] != RightQuote {
      assert i == 0 || i == 1 || i == 2 || i == 3 || i == 4 || i == 5;
    }
  }

  /** Where `exch` is called, after the call to `define` has been replaced
      by its empty expansion. */
  lemma ExchCallSite(src: string)
    requires ExchShape(src)
    ensures var r := src[25..];
      |r| == 18 && r[0] == '\n' && Spells(r, 1, "exch") && r[5] == '(' && Spells(r, 6, "arg") &&
      r[9] == '1' && r[10] == ',' && r[11] == ' ' && Spells(r, 12, "arg") && r[15] == '2' &&
      r[16] == ')' && r[17..] == src[42..]
  {
    var r := src[25..];
    forall i | 0 <= i < 4 ensures r[1 + i] == "exch"[i] {
      assert r[1 + i] == src[26 + i];
    }
    forall i | 0 <= i < 3 ensures r[6 + i] == "arg"[i] && r[12 + i] == "arg"[i] {
      assert r[6 + i] == src[31 + i] && r[12 + i] == src[37 + i];
    }
  }

  /** The call of `exch` with `arg1` and `arg2` expands to `arg2, arg1`
      and leaves the table alone. */
  lemma ExchCall(rank: Rank)
    ensures CallSafe(Frame("exch", "$2, $1", ["exch", "arg1"], "arg2"))
    ensures CallMacro(map["exch" := "$2, $1"], Frame("exch", "$2, $1", ["exch", "arg1"], "arg2"), rank) ==
      Called(map["exch" := "$2, $1"], "arg2, arg1")
  {
    var m := Frame("exch", "$2, $1", ["exch", "arg1"], "arg2");
    assert m.args == ["exch", "arg1", "arg2"];
    ExchSwaps(rank);
  }

  /** The states of the controller on the second input before each token
      is processed: up to the end of the call of `define`, through the
      call of `exch`, and through its rescanned expansion. */
  function ExchStatesA(src: string): seq<Machine>
    requires |src| >= 42
  {
    [Machine(At(src, 0), map[], [], None, false, ""),
     Machine(At(src, 1), map[], [], None, false, "\n"),
     Machine(At(src, 8), map[], [Frame(DefineName, "", [DefineName], "")], None, true, "\n"),
     Machine(At(src, 14), map[], [Frame(DefineName, "", [DefineName], "exch")], None, false, "\n"),
     Machine(At(src, 15), map[], [Frame(DefineName, "", [DefineName, "exch"], "")], None, true, "\n"),
     Machine(At(src, 16), map[], [Frame(DefineName, "", [DefineName, "exch"], "")], None, true, "\n"),
     Machine(At(src, 24), map[], [Frame(DefineName, "", [DefineName, "exch"], "$2, $1")], None, false, "\n"),
     Machine(At(src[25..], 0), map["exch" := "$2, $1"], [], None, false, "\n"),
     Machine(At(src[25..], 1), map["exch" := "$2, $1"], [], None, false, "\n\n")]
  }

  function ExchStatesB(src: string): seq<Machine>
    requires |src| >= 42
  {
    [Machine(At(src[25..], 1), map["exch" := "$2, $1"], [], None, false, "\n\n"),
     Machine(At(src[25..], 6), map["exch" := "$2, $1"], [Frame("exch", "$2, $1", ["exch"], "")], None, true, "\n\n"),
     Machine(At(src[25..], 9), map["exch" := "$2, $1"], [Frame("exch", "$2, $1", ["exch"], "arg")], None, false, "\n\n"),
     Machine(At(src[25..], 10), map["exch" := "$2, $1"], [Frame("exch", "$2, $1", ["exch"], "arg1")], None, false, "\n\n"),
     Machine(At(src[25..], 11), map["exch" := "$2, $1"], [Frame("exch", "$2, $1", ["exch", "arg1"], "")], None, true, "\n\n"),
     Machine(At(src[25..], 12), map["exch" := "$2, $1"], [Frame("exch", "$2, $1", ["exch", "arg1"], "")], None, true, "\n\n"),
     Machine(At(src[25..], 15), map["exch" := "$2, $1"], [Frame("exch", "$2, $1", ["exch", "arg1"], "arg")], None, false, "\n\n"),
     Machine(At(src[25..], 16), map["exch" := "$2, $1"], [Frame("exch", "$2, $1", ["exch", "arg1"], "arg2")], None, false, "\n\n"),
     Machine(At(("arg2, arg1" + src[42..]), 0), map["exch" := "$2, $1"], [], None, false, "\n\n")]
  }

  function ExchStatesC(src: string): seq<Machine>
    requires |src| >= 42
  {
    [Machine(At(("arg2, arg1" + src[42..]), 0), map["exch" := "$2, $1"], [], None, false, "\n\n"),
     Machine(At(("arg2, arg1" + src[42..]), 3), map["exch" := "$2, $1"], [], None, false, "\n\narg"),
     Machine(At(("arg2, arg1" + src[42..]), 4), map["exch" := "$2, $1"], [], None, false, "\n\narg2"),
     Machine(At(("arg2, arg1" + src[42..]), 5), map["exch" := "$2, $1"], [], None, false, "\n\narg2,"),
     Machine(At(("arg2, arg1" + src[42..]), 6), map["exch" := "$2, $1"], [], None, false, "\n\narg2, "),
     Machine(At(("arg2, arg1" + src[42..]), 9), map["exch" := "$2, $1"], [], None, false, "\n\narg2, arg"),
     Machine(At(("arg2, arg1" + src[42..]), 10), map["exch" := "$2, $1"], [], None, false, "\n\narg2, arg1"),
     Machine(At(("arg2, arg1" + src[42..]), 11), map["exch" := "$2, $1"], [], None, false, "\n\narg2, arg1\n")]
  }

  ghost predicate AllOk(ss: seq<Machine>) {
    forall k :: 0 <= k < |ss| ==> MInv(ss[k])
  }

  lemma ExchStatesOkA(src: string)
    requires ExchShape(src)
    ensures |ExchStatesA(src)| == 9 && AllOk(ExchStatesA(src))
  {
    var ss := ExchStatesA(src);
    forall k | 0 <= k < 9 ensures MInv(ss[k]) {
      forall i | 0 <= i < |ss[k].stack| ensures FrameOk(ss[k].stack[i]) {
      }
    }
  }

  lemma ExchStatesOkB(src: string)
    requires ExchShape(src)
    ensures |ExchStatesB(src)| == 9 && AllOk(ExchStatesB(src))
  {
    var ss := ExchStatesB(src);
    forall k | 0 <= k < 9 ensures MInv(ss[k]) {
      forall i | 0 <= i < |ss[k].stack| ensures FrameOk(ss[k].stack[i]) {
      }
    }
  }

  lemma ExchStatesOkC(src: string)
    requires ExchShape(src)
    ensures |ExchStatesC(src)| == 8 && AllOk(ExchStatesC(src))
  {
  }

  /** The three parts join up. */
  lemma ExchJoins(src: string)
    requires |src| >= 42
    ensures ExchStatesA(src)[8] == ExchStatesB(src)[0] && ExchStatesB(src)[8] == ExchStatesC(src)[0]
  {
  }

  // Each token of the second input, as the step from the state before it
  // to the state after it.

  lemma Exch0(src: string, k: nat, rank: Rank)
    requires ExchShape(src) && k == 0
    ensures Moves(ExchStatesA(src)[k], ExchStatesA(src)[k + 1], rank)
  {
    Exch0Token(src, rank);
  }

  /** The newline before `define` is output. */
  lemma Exch0Token(src: string, rank: Rank)
    requires ExchShape(src)
    ensures Moves(Machine(At(src, 0), map[], [], None, false, ""),
                  Machine(At(src, 1), map[], [], None, false, "\n"), rank)
  {
    IdleLiteral(src, 0, map[], "", rank);
    assert "" + [src[0]] == "\n";
  }

  lemma Exch1(src: string, k: nat, rank: Rank)
    requires ExchShape(src) && k == 1
    ensures Moves(ExchStatesA(src)[k], ExchStatesA(src)[k + 1], rank)
  {
    Exch1Token(src, rank);
  }

  /** `define(` opens a call of the built-in. */
  lemma Exch1Token(src: string, rank: Rank)
    requires ExchShape(src)
    ensures Moves(Machine(At(src, 1), map[], [], None, false, "\n"),
                  Machine(At(src, 8), map[], [Frame(DefineName, "", [DefineName], "")], None, true, "\n"), rank)
  {
    CallOpens(src, 1, DefineName, map[], "\n", rank);
  }

  lemma Exch2(src: string, k: nat, rank: Rank)
    requires ExchShape(src) && k == 2
    ensures Moves(ExchStatesA(src)[k], ExchStatesA(src)[k + 1], rank)
  {
    Exch2Token(src, rank);
  }

  /** The quoted `exch` becomes the first argument. */
  lemma Exch2Token(src: string, rank: Rank)
    requires ExchShape(src)
    ensures Moves(Machine(At(src, 8), map[], [Frame(DefineName, "", [DefineName], "")], None, true, "\n"),
                  Machine(At(src, 14), map[], [Frame(DefineName, "", [DefineName], "exch")], None, false, "\n"), rank)
  {
    ArgString(src, 8, "exch", map[], DefineName, "", [DefineName], "", true, "\n", rank);
    assert "" + "exch" == "exch";
  }

  lemma Exch3(src: string, k: nat, rank: Rank)
    requires ExchShape(src) && k == 3
    ensures Moves(ExchStatesA(src)[k], ExchStatesA(src)[k + 1], rank)
  {
    Exch3Token(src, rank);
  }

  /** The comma ends it. */
  lemma Exch3Token(src: string, rank: Rank)
    requires ExchShape(src)
    ensures Moves(Machine(At(src, 14), map[], [Frame(DefineName, "", [DefineName], "exch")], None, false, "\n"),
                  Machine(At(src, 15), map[], [Frame(DefineName, "", [DefineName, "exch"], "")], None, true, "\n"), rank)
  {
    ArgComma(src, 14, map[], DefineName, "", [DefineName], "exch", false, "\n", rank);
    assert [DefineName] + ["exch"] == [DefineName, "exch"];
  }

  lemma Exch4(src: string, k: nat, rank: Rank)
    requires ExchShape(src) && k == 4
    ensures Moves(ExchStatesA(src)[k], ExchStatesA(src)[k + 1], rank)
  {
    Exch4Token(src, rank);
  }

  /** The blank after the comma is dropped. */
  lemma Exch4Token(src: string, rank: Rank)
    requires ExchShape(src)
    ensures Moves(Machine(At(src, 15), map[], [Frame(DefineName, "", [DefineName, "exch"], "")], None, true, "\n"),
                  Machine(At(src, 16), map[], [Frame(DefineName, "", [DefineName, "exch"], "")], None, true, "\n"), rank)
  {
    ArgSkip(src, 15, map[], DefineName, "", [DefineName, "exch"], "", "\n", rank);
  }

  lemma Exch5(src: string, k: nat, rank: Rank)
    requires ExchShape(src) && k == 5
    ensures Moves(ExchStatesA(src)[k], ExchStatesA(src)[k + 1], rank)
  {
    Exch5Token(src, rank);
  }

  /** The quoted template becomes the second argument. */
  lemma Exch5Token(src: string, rank: Rank)
    requires ExchShape(src)
    ensures Moves(Machine(At(src, 16), map[], [Frame(DefineName, "", [DefineName, "exch"], "")], None, true, "\n"),
                  Machine(At(src, 24), map[], [Frame(DefineName, "", [DefineName, "exch"], "$2, $1")], None, false, "\n"), rank)
  {
    ExchTemplateFlat();
    ArgString(src, 16, "$2, $1", map[], DefineName, "", [DefineName, "exch"], "", true, "\n", rank);
    assert "" + "$2, $1" == "$2, $1";
  }

  lemma Exch6(src: string, k: nat, rank: Rank)
    requires ExchShape(src) && k == 6
    ensures Moves(ExchStatesA(src)[k], ExchStatesA(src)[k + 1], rank)
  {
    Exch6Token(src, rank);
  }

  /** The `)` calls `define`, which adds `exch` to the table and expands to
      nothing. */
  lemma Exch6Token(src: string, rank: Rank)
    requires ExchShape(src)
    ensures Moves(Machine(At(src, 24), map[], [Frame(DefineName, "", [DefineName, "exch"], "$2, $1")], None, false, "\n"),
                  Machine(At(src[25..], 0), map["exch" := "$2, $1"], [], None, false, "\n"), rank)
  {
    var m := Frame(DefineName, "", [DefineName, "exch"], "$2, $1");
    assert m.args == [DefineName, "exch", "$2, $1"];
    assert CallMacro(map[], m, rank) == Called(map["exch" := "$2, $1"], "");
    assert "" + src[25..] == src[25..];
    ArgClose(src, 24, map[], DefineName, "", [DefineName, "exch"], "$2, $1", false, "\n",
      src[25..], map["exch" := "$2, $1"], rank);
  }

  lemma Exch7(src: string, k: nat, rank: Rank)
    requires ExchShape(src) && k == 7
    ensures Moves(ExchStatesA(src)[k], ExchStatesA(src)[k + 1], rank)
  {
    Exch7Token(src, rank);
  }

  /** The newline after the call is output. */
  lemma Exch7Token(src: string, rank: Rank)
    requires ExchShape(src)
    ensures Moves(Machine(At(src[25..], 0), map["exch" := "$2, $1"], [], None, false, "\n"),
                  Machine(At(src[25..], 1), map["exch" := "$2, $1"], [], None, false, "\n\n"), rank)
  {
    IdleLiteral(src[25..], 0, map["exch" := "$2, $1"], "\n", rank);
    assert "\n" + [src[25..][0]] == "\n\n";
  }

  lemma Exch8(src: string, k: nat, rank: Rank)
    requires ExchShape(src) && k == 0
    ensures Moves(ExchStatesB(src)[k], ExchStatesB(src)[k + 1], rank)
  {
    Exch8Token(src, rank);
  }

  /** `exch(` opens a call of `exch`. */
  lemma Exch8Token(src: string, rank: Rank)
    requires ExchShape(src)
    ensures Moves(Machine(At(src[25..], 1), map["exch" := "$2, $1"], [], None, false, "\n\n"),
                  Machine(At(src[25..], 6), map["exch" := "$2, $1"], [Frame("exch", "$2, $1", ["exch"], "")], None, true, "\n\n"), rank)
  {
    ExchCallSite(src);
    CallOpens(src[25..], 1, "exch", map["exch" := "$2, $1"], "\n\n", rank);
  }

  lemma Exch9(src: string, k: nat, rank: Rank)
    requires ExchShape(src) && k == 1
    ensures Moves(ExchStatesB(src)[k], ExchStatesB(src)[k + 1], rank)
  {
    Exch9Token(src, rank);
  }

  /** The name `arg` goes into the first argument. */
  lemma Exch9Token(src: string, rank: Rank)
    requires ExchShape(src)
    ensures Moves(Machine(At(src[25..], 6), map["exch" := "$2, $1"], [Frame("exch", "$2, $1", ["exch"], "")], None, true, "\n\n"),
                  Machine(At(src[25..], 9), map["exch" := "$2, $1"], [Frame("exch", "$2, $1", ["exch"], "arg")], None, false, "\n\n"), rank)
  {
    ExchCallSite(src);
    ArgName(src[25..], 6, "arg", map["exch" := "$2, $1"], "exch", "$2, $1", ["exch"], "", true, "\n\n", rank);
    assert "" + "arg" == "arg";
  }

  lemma Exch10(src: string, k: nat, rank: Rank)
    requires ExchShape(src) && k == 2
    ensures Moves(ExchStatesB(src)[k], ExchStatesB(src)[k + 1], rank)
  {
    Exch10Token(src, rank);
  }

  /** The digit after it, a literal, follows. */
  lemma Exch10Token(src: string, rank: Rank)
    requires ExchShape(src)
    ensures Moves(Machine(At(src[25..], 9), map["exch" := "$2, $1"], [Frame("exch", "$2, $1", ["exch"], "arg")], None, false, "\n\n"),
                  Machine(At(src[25..], 10), map["exch" := "$2, $1"], [Frame("exch", "$2, $1", ["exch"], "arg1")], None, false, "\n\n"), rank)
  {
    ExchCallSite(src);
    ArgLiteral(src[25..], 9, map["exch" := "$2, $1"], "exch", "$2, $1", ["exch"], "arg", false, "\n\n", rank);
    assert "arg" + [src[25..][9]] == "arg1";
  }

  lemma Exch11(src: string, k: nat, rank: Rank)
    requires ExchShape(src) && k == 3
    ensures Moves(ExchStatesB(src)[k], ExchStatesB(src)[k + 1], rank)
  {
    Exch11Token(src, rank);
  }

  /** The comma ends the first argument. */
  lemma Exch11Token(src: string, rank: Rank)
    requires ExchShape(src)
    ensures Moves(Machine(At(src[25..], 10), map["exch" := "$2, $1"], [Frame("exch", "$2, $1", ["exch"], "arg1")], None, false, "\n\n"),
                  Machine(At(src[25..], 11), map["exch" := "$2, $1"], [Frame("exch", "$2, $1", ["exch", "arg1"], "")], None, true, "\n\n"), rank)
  {
    ExchCallSite(src);
    ArgComma(src[25..], 10, map["exch" := "$2, $1"], "exch", "$2, $1", ["exch"], "arg1", false, "\n\n", rank);
    assert ["exch"] + ["arg1"] == ["exch", "arg1"];
  }

  lemma Exch12(src: string, k: nat, rank: Rank)
    requires ExchShape(src) && k == 4
    ensures Moves(ExchStatesB(src)[k], ExchStatesB(src)[k + 1], rank)
  {
    Exch12Token(src, rank);
  }

  /** The blank after the comma is dropped. */
  lemma Exch12Token(src: string, rank: Rank)
    requires ExchShape(src)
    ensures Moves(Machine(At(src[25..], 11), map["exch" := "$2, $1"], [Frame("exch", "$2, $1", ["exch", "arg1"], "")], None, true, "\n\n"),
                  Machine(At(src[25..], 12), map["exch" := "$2, $1"], [Frame("exch", "$2, $1", ["exch", "arg1"], "")], None, true, "\n\n"), rank)
  {
    ExchCallSite(src);
    ArgSkip(src[25..], 11, map["exch" := "$2, $1"], "exch", "$2, $1", ["exch", "arg1"], "", "\n\n", rank);
  }

  lemma Exch13(src: string, k: nat, rank: Rank)
    requires ExchShape(src) && k == 5
    ensures Moves(ExchStatesB(src)[k], ExchStatesB(src)[k + 1], rank)
  {
    Exch13Token(src, rank);
  }

  /** The name `arg` starts the second argument. */
  lemma Exch13Token(src: string, rank: Rank)
    requires ExchShape(src)
    ensures Moves(Machine(At(src[25..], 12), map["exch" := "$2, $1"], [Frame("exch", "$2, $1", ["exch", "arg1"], "")], None, true, "\n\n"),
                  Machine(At(src[25..], 15), map["exch" := "$2, $1"], [Frame("exch", "$2, $1", ["exch", "arg1"], "arg")], None, false, "\n\n"), rank)
  {
    ExchCallSite(src);
    ArgName(src[25..], 12, "arg", map["exch" := "$2, $1"], "exch", "$2, $1", ["exch", "arg1"], "", true, "\n\n", rank);
    assert "" + "arg" == "arg";
  }

  lemma Exch14(src: string, k: nat, rank: Rank)
    requires ExchShape(src) && k == 6
    ensures Moves(ExchStatesB(src)[k], ExchStatesB(src)[k + 1], rank)
  {
    Exch14Token(src, rank);
  }

  /** The digit after it follows. */
  lemma Exch14Token(src: string, rank: Rank)
    requires ExchShape(src)
    ensures Moves(Machine(At(src[25..], 15), map["exch" := "$2, $1"], [Frame("exch", "$2, $1", ["exch", "arg1"], "arg")], None, false, "\n\n"),
                  Machine(At(src[25..], 16), map["exch" := "$2, $1"], [Frame("exch", "$2, $1", ["exch", "arg1"], "arg2")], None, false, "\n\n"), rank)
  {
    ExchCallSite(src);
    ArgLiteral(src[25..], 15, map["exch" := "$2, $1"], "exch", "$2, $1", ["exch", "arg1"], "arg", false, "\n\n", rank);
    assert "arg" + [src[25..][15]] == "arg2";
  }

  lemma Exch15(src: string, k: nat, rank: Rank)
    requires ExchShape(src) && k == 7
    ensures Moves(ExchStatesB(src)[k], ExchStatesB(src)[k + 1], rank)
  {
    Exch15Token(src, rank);
  }

  /** The `)` calls `exch`, whose expansion swaps the arguments and is read
      next. */
  lemma Exch15Token(src: string, rank: Rank)
    requires ExchShape(src)
    ensures Moves(Machine(At(src[25..], 16), map["exch" := "$2, $1"], [Frame("exch", "$2, $1", ["exch", "arg1"], "arg2")], None, false, "\n\n"),
                  Machine(At(("arg2, arg1" + src[42..]), 0), map["exch" := "$2, $1"], [], None, false, "\n\n"), rank)
  {
    ExchCallSite(src);
    ExchCall(rank);
    ArgClose(src[25..], 16, map["exch" := "$2, $1"], "exch", "$2, $1", ["exch", "arg1"], "arg2", false, "\n\n",
      "arg2, arg1" + src[42..], map["exch" := "$2, $1"], rank);
  }

  lemma Exch16(src: string, k: nat, rank: Rank)
    requires ExchShape(src) && k == 0
    ensures Moves(ExchStatesC(src)[k], ExchStatesC(src)[k + 1], rank)
  {
    Exch16Token(src, rank);
  }

  /** The rescanned name `arg` is no macro and is output. */
  lemma Exch16Token(src: string, rank: Rank)
    requires ExchShape(src)
    ensures Moves(Machine(At(("arg2, arg1" + src[42..]), 0), map["exch" := "$2, $1"], [], None, false, "\n\n"),
                  Machine(At(("arg2, arg1" + src[42..]), 3), map["exch" := "$2, $1"], [], None, false, "\n\narg"), rank)
  {
    var t := "arg2, arg1" + src[42..];
    assert Spells(t, 0, "arg") && t[3] == '2';
    IdleName(t, 0, "arg", map["exch" := "$2, $1"], "\n\n", rank);
  }

  lemma Exch17(src: string, k: nat, rank: Rank)
    requires ExchShape(src) && k == 1
    ensures Moves(ExchStatesC(src)[k], ExchStatesC(src)[k + 1], rank)
  {
    Exch17Token(src, rank);
  }

  /** The rescanned literal is output. */
  lemma Exch17Token(src: string, rank: Rank)
    requires ExchShape(src)
    ensures Moves(Machine(At(("arg2, arg1" + src[42..]), 3), map["exch" := "$2, $1"], [], None, false, "\n\narg"),
                  Machine(At(("arg2, arg1" + src[42..]), 4), map["exch" := "$2, $1"], [], None, false, "\n\narg2"), rank)
  {
    var t := "arg2, arg1" + src[42..];
    assert t[3] == '2';
    IdleLiteral(t, 3, map["exch" := "$2, $1"], "\n\narg", rank);
  }

  lemma Exch18(src: string, k: nat, rank: Rank)
    requires ExchShape(src) && k == 2
    ensures Moves(ExchStatesC(src)[k], ExchStatesC(src)[k + 1], rank)
  {
    Exch18Token(src, rank);
  }

  /** The rescanned literal is output. */
  lemma Exch18Token(src: string, rank: Rank)
    requires ExchShape(src)
    ensures Moves(Machine(At(("arg2, arg1" + src[42..]), 4), map["exch" := "$2, $1"], [], None, false, "\n\narg2"),
                  Machine(At(("arg2, arg1" + src[42..]), 5), map["exch" := "$2, $1"], [], None, false, "\n\narg2,"), rank)
  {
    var t := "arg2, arg1" + src[42..];
    assert t[4] == ',';
    IdleLiteral(t, 4, map["exch" := "$2, $1"], "\n\narg2", rank);
  }

  lemma Exch19(src: string, k: nat, rank: Rank)
    requires ExchShape(src) && k == 3
    ensures Moves(ExchStatesC(src)[k], ExchStatesC(src)[k + 1], rank)
  {
    Exch19Token(src, rank);
  }

  /** The rescanned literal is output. */
  lemma Exch19Token(src: string, rank: Rank)
    requires ExchShape(src)
    ensures Moves(Machine(At(("arg2, arg1" + src[42..]), 5), map["exch" := "$2, $1"], [], None, false, "\n\narg2,"),
                  Machine(At(("arg2, arg1" + src[42..]), 6), map["exch" := "$2, $1"], [], None, false, "\n\narg2, "), rank)
  {
    var t := "arg2, arg1" + src[42..];
    assert t[5] == ' ';
    IdleLiteral(t, 5, map["exch" := "$2, $1"], "\n\narg2,", rank);
  }

  lemma Exch20(src: string, k: nat, rank: Rank)
    requires ExchShape(src) && k == 4
    ensures Moves(ExchStatesC(src)[k], ExchStatesC(src)[k + 1], rank)
  {
    Exch20Token(src, rank);
  }

  /** The rescanned name `arg` is no macro and is output. */
  lemma Exch20Token(src: string, rank: Rank)
    requires ExchShape(src)
    ensures Moves(Machine(At(("arg2, arg1" + src[42..]), 6), map["exch" := "$2, $1"], [], None, false, "\n\narg2, "),
                  Machine(At(("arg2, arg1" + src[42..]), 9), map["exch" := "$2, $1"], [], None, false, "\n\narg2, arg"), rank)
  {
    var t := "arg2, arg1" + src[42..];
    assert Spells(t, 6, "arg") && t[9] == '1';
    IdleName(t, 6, "arg", map["exch" := "$2, $1"], "\n\narg2, ", rank);
  }

  lemma Exch21(src: string, k: nat, rank: Rank)
    requires ExchShape(src) && k == 5
    ensures Moves(ExchStatesC(src)[k], ExchStatesC(src)[k + 1], rank)
  {
    Exch21Token(src, rank);
  }

  /** The rescanned literal is output. */
  lemma Exch21Token(src: string, rank: Rank)
    requires ExchShape(src)
    ensures Moves(Machine(At(("arg2, arg1" + src[42..]), 9), map["exch" := "$2, $1"], [], None, false, "\n\narg2, arg"),
                  Machine(At(("arg2, arg1" + src[42..]), 10), map["exch" := "$2, $1"], [], None, false, "\n\narg2, arg1"), rank)
  {
    var t := "arg2, arg1" + src[42..];
    assert t[9] == '1';
    IdleLiteral(t, 9, map["exch" := "$2, $1"], "\n\narg2, arg", rank);
  }

  lemma Exch22(src: string, k: nat, rank: Rank)
    requires ExchShape(src) && k == 6
    ensures Moves(ExchStatesC(src)[k], ExchStatesC(src)[k + 1], rank)
  {
    Exch22Token(src, rank);
  }

  /** The rescanned literal is output. */
  lemma Exch22Token(src: string, rank: Rank)
    requires ExchShape(src)
    ensures Moves(Machine(At(("arg2, arg1" + src[42..]), 10), map["exch" := "$2, $1"], [], None, false, "\n\narg2, arg1"),
                  Machine(At(("arg2, arg1" + src[42..]), 11), map["exch" := "$2, $1"], [], None, false, "\n\narg2, arg1\n"), rank)
  {
    var t := "arg2, arg1" + src[42..];
    assert t[10] == '\n';
    IdleLiteral(t, 10, map["exch" := "$2, $1"], "\n\narg2, arg1", rank);
  }

  lemma ExchTraceA(src: string, rank: Rank)
    requires ExchShape(src)
    ensures Trace(ExchStatesA(src), rank)
  {
    var ss := ExchStatesA(src);
    forall k: nat | k < |ss| - 1 ensures Link(ss, k, rank) {
      if k == 0 { Exch0(src, k, rank); }
      else if k == 1 { Exch1(src, k, rank); }
      else if k == 2 { Exch2(src, k, rank); }
      else if k == 3 { Exch3(src, k, rank); }
      else if k == 4 { Exch4(src, k, rank); }
      else if k == 5 { Exch5(src, k, rank); }
      else if k == 6 { Exch6(src, k, rank); }
      else { Exch7(src, k, rank); }
    }
  }

  lemma ExchTraceB(src: string, rank: Rank)
    requires ExchShape(src)
    ensures Trace(ExchStatesB(src), rank)
  {
    var ss := ExchStatesB(src);
    forall k: nat | k < |ss| - 1 ensures Link(ss, k, rank) {
      if k == 0 { Exch8(src, k, rank); }
      else if k == 1 { Exch9(src, k, rank); }
      else if k == 2 { Exch10(src, k, rank); }
      else if k == 3 { Exch11(src, k, rank); }
      else if k == 4 { Exch12(src, k, rank); }
      else if k == 5 { Exch13(src, k, rank); }
      else if k == 6 { Exch14(src, k, rank); }
      else { Exch15(src, k, rank); }
    }
  }

  lemma ExchTraceC(src: string, rank: Rank)
    requires ExchShape(src)
    ensures Trace(ExchStatesC(src), rank)
  {
    var ss := ExchStatesC(src);
    forall k: nat | k < |ss| - 1 ensures Link(ss, k, rank) {
      if k == 0 { Exch16(src, k, rank); }
      else if k == 1 { Exch17(src, k, rank); }
      else if k == 2 { Exch18(src, k, rank); }
      else if k == 3 { Exch19(src, k, rank); }
      else if k == 4 { Exch20(src, k, rank); }
      else if k == 5 { Exch21(src, k, rank); }
      else { Exch22(src, k, rank); }
    }
  }

  /** The loop of `write` goes through each part of the run, and each part
      ends where the next one starts. */
  lemma ExchResumeA(src: string, f: nat, rank: Rank)
    requires ExchShape(src) && f >= 8
    ensures MInv(ExchStatesB(src)[0])
    ensures Resume(Machine(At(src, 0), map[], [], None, false, ""), f, rank) == Resume(ExchStatesB(src)[0], f - 8, rank)
  {
    ExchStatesOkA(src);
    ExchJoins(src);
    assert Resume(ExchStatesA(src)[0], f, rank) == Resume(ExchStatesA(src)[8], f - 8, rank) by {
      ExchTraceA(src, rank);
      TraceResume(ExchStatesA(src), f, rank);
    }
  }

  lemma ExchResumeC(src: string, f: nat, rank: Rank)
    requires ExchShape(src) && f >= 7
    ensures MInv(ExchStatesC(src)[0])
    ensures Resume(ExchStatesC(src)[0], f, rank) == Run(ExchStatesC(src)[7], Finished)
  {
    var ss := ExchStatesC(src);
    ExchStatesOkC(src);
    assert Resume(ss[0], f, rank) == Resume(ss[7], f - 7, rank) by {
      ExchTraceC(src, rank);
      TraceResume(ss, f, rank);
    }
    ResumeEnd(ss[7], f - 7, rank);
  }

  lemma ExchResumeB(src: string, f: nat, rank: Rank)
    requires ExchShape(src) && f >= 15
    ensures MInv(ExchStatesB(src)[0])
    ensures Resume(ExchStatesB(src)[0], f, rank) == Run(ExchStatesC(src)[7], Finished)
  {
    ExchStatesOkB(src);
    ExchJoins(src);
    assert Resume(ExchStatesB(src)[0], f, rank) == Resume(ExchStatesC(src)[0], f - 8, rank) by {
      ExchTraceB(src, rank);
      TraceResume(ExchStatesB(src), f, rank);
    }
    ExchResumeC(src, f - 8, rank);
  }

  /** `write` on a fresh controller goes through the states of the second
      input and stops at the end of the input. */
  lemma ExchRunEnds(src: string, f: nat, rank: Rank)
    requires ExchShape(src) && f >= 23
    ensures Write(Start, src, f, rank) == Run(ExchStatesC(src)[7], Finished)
  {
    var st := Machine(At(src, 0), map[], [], None, false, "");
    assert Write(Start, src, f, rank) == Resume(st, f, rank) by {
      WriteStart(src, f, rank);
    }
    assert Resume(st, f, rank) == Resume(ExchStatesB(src)[0], f - 8, rank) by {
      ExchResumeA(src, f, rank);
    }
    ExchResumeB(src, f - 8, rank);
  }

  /** The second input defines `exch` as `$2, $1` and calls it: the output
      is the two newlines around the call of `define`, the two arguments
      swapped, and the last newline, whatever the hash order. */
  lemma ExchWorld(f: nat, rank: Rank)
    requires f >= 23
    ensures var r := Write(Start, ExchInput, f, rank);
      r.status == Finished && r.state.output == "\n\narg2, arg1\n" &&
      r.state.macros == map["exch" := "$2, $1"]
  {
    ExchInputShape();
    ExchRunEnds(ExchInput, f, rank);
  }
}

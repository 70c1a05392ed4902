/** Concrete behaviour of the expander on the inputs the program ships
    with, and an input on which the visiting order of the placeholders
    shows in the result. */
module Scenarios {
  import opened Text
  import opened Substitution

  /** The tail `, $1` of the template of `exch`: one placeholder, which
      the substitution replaces by `arg1`. */
  lemma ExchTail()
    ensures SimpleTemplate(", $1") && ExpandSafe(", $1", 3)
    ensures SubstAll(", $1", ["exch", "arg1", "arg2"]) == ", arg1"
  {
    var args := ["exch", "arg1", "arg2"];
    var e: string := [];
    assert "$1" == ['$', '1'] + e;
    assert " $1" == [' '] + "$1";
    assert ", $1" == [','] + " $1";
    ScanPlaceholder('1', e, args);
    ScanOther(' ', "$1", args);
    ScanOther(',', " $1", args);
    assert [','] + ([' '] + ("arg1" + e)) == ", arg1";
  }

  /** No argument of the call of `exch` holds a `$`. */
  lemma ExchArgsPlain()
    ensures NoDollar(["exch", "arg1", "arg2"])
  {
    var args := ["exch", "arg1", "arg2"];
    forall i, j | 0 <= i < |args| && 0 <= j < |args[i]| ensures args[i][j] != '$' {
      assert i == 0 || i == 1 || i == 2;
    }
  }

  /** The template of `exch` swaps its two arguments, whatever order the
      hash set visits `$1` and `$2` in. */
  lemma ExchSwaps(rank: Rank)
    ensures ExpandSafe("$2, $1", 3)
    ensures Expand("$2, $1", ["exch", "arg1", "arg2"], rank) == "arg2, arg1"
  {
    var args := ["exch", "arg1", "arg2"];
    ExchTail();
    assert "$2, $1" == ['$', '2'] + ", $1";
    ScanPlaceholder('2', ", $1", args);
    ExchArgsPlain();
    assert "arg2" + ", arg1" == "arg2, arg1";
  }

  /** A hash order that visits `$1` before `$2`, and one that visits `$2`
      first. */
  function OneFirst(ds: seq<string>, p: string): nat {
    if p == "$1" then 0 else 1
  }

  function TwoFirst(ds: seq<string>, p: string): nat {
    if p == "$2" then 0 else 1
  }

  lemma PlaceholdersOneTwo()
    ensures Matches("$1$2") == ["$1", "$2"]
    ensures Placeholders("$1$2") == ["$1", "$2"]
    ensures ExpandSafe("$1$2", 3)
  {
    var args := ["m", "$2", "x"];
    var e: string := [];
    assert "$2" == ['$', '2'] + e;
    assert "$1$2" == ['$', '1'] + "$2";
    ScanPlaceholder('2', e, args);
    ScanPlaceholder('1', "$2", args);
    assert ["$1", "$2"][..1] == ["$1"];
    assert ["$1"][..0] == [];
  }

  /** With two placeholders, the order is fixed by their ranks alone: both
      are visited, once each, the lower rank first. */
  lemma VisitTwo(s: string, a: string, b: string, rank: Rank)
    requires Placeholders(s) == [a, b]
    ensures rank([a, b], a) < rank([a, b], b) ==> VisitOrder(s, rank) == [a, b]
    ensures rank([a, b], b) < rank([a, b], a) ==> VisitOrder(s, rank) == [b, a]
  {
    var o := VisitOrder(s, rank);
    assert a in Placeholders(s) && b in Placeholders(s);
    assert a in o && b in o && |o| == 2;
    assert rank([a, b], o[0]) <= rank([a, b], o[1]);
  }

  lemma VisitOrdersOneTwo()
    ensures VisitOrder("$1$2", OneFirst) == ["$1", "$2"]
    ensures VisitOrder("$1$2", TwoFirst) == ["$2", "$1"]
  {
    PlaceholdersOneTwo();
    VisitTwo("$1$2", "$1", "$2", OneFirst);
    VisitTwo("$1$2", "$1", "$2", TwoFirst);
  }

  /** When an argument itself contains a placeholder, `expand` gives
      different results for different hash orders: replacing `$1` first
      lets the `$2` it brings in be replaced too. */
  lemma ExpandDependsOnOrder()
    ensures ExpandSafe("$1$2", 3)
    ensures Expand("$1$2", ["m", "$2", "x"], OneFirst) == "xx"
    ensures Expand("$1$2", ["m", "$2", "x"], TwoFirst) == "$2x"
  {
    PlaceholdersOneTwo();
    VisitOrdersOneTwo();
    ReplaceRuns();
  }

  /** The two orders of visiting `$1` and `$2`, step by step. */
  lemma ReplaceRuns()
    ensures ReplaceAll("$1$2", ["$1", "$2"], ["m", "$2", "x"]) == "xx"
    ensures ReplaceAll("$1$2", ["$2", "$1"], ["m", "$2", "x"]) == "$2x"
  {
    var e: string := [];
    assert Replace("2", "$1", "$2") == "2";
    assert Replace("$2", "$1", "$2") == "$2" by { assert "$2"[1..] == "2"; }
    assert Replace("$1$2", "$1", "$2") == "$2$2" by { assert "$1$2"[..2] == "$1" && "$1$2"[2..] == "$2"; }
    assert Replace(e, "$2", "x") == e;
    assert Replace("$2", "$2", "x") == "x" by { assert "$2"[..2] == "$2" && "$2"[2..] == e; }
    assert Replace("$2$2", "$2", "x") == "xx" by { assert "$2$2"[..2] == "$2" && "$2$2"[2..] == "$2"; }
    assert Replace("1$2", "$2", "x") == "1x" by { assert "1$2"[..2] != "$2" && "1$2"[1..] == "$2"; }
    assert Replace("$1$2", "$2", "x") == "$1x" by { assert "$1$2"[..2] != "$2" && "$1$2"[1..] == "1$2"; }
    assert Replace("x", "$1", "$2") == "x";
    assert Replace("$1x", "$1", "$2") == "$2x" by { assert "$1x"[..2] == "$1" && "$1x"[2..] == "x"; }
    assert ["$1", "$2"][1..] == ["$2"] && ["$2", "$1"][1..] == ["$1"];
  }

  /** `$$1$2` has only the single-digit placeholders `$1` and `$2`, yet it
      is not a simple template: its leading `$` is followed by another `$`. */
  lemma PlaceholdersDollarOneTwo()
    ensures Matches("$$1$2") == ["$1", "$2"]
    ensures Placeholders("$$1$2") == ["$1", "$2"]
    ensures ExpandSafe("$$1$2", 3)
    ensures !SimpleTemplate("$$1$2")
  {
    PlaceholdersOneTwo();
    assert "$$1$2"[1..] == "$1$2";
  }

  /** Arguments without `$` do not make `expand` independent of the order
      when a `$` stands right before a placeholder: `$1` brings in a digit
      that turns `$` into the placeholder `$2`. */
  lemma DollarDependsOnOrder()
    ensures ExpandSafe("$$1$2", 3)
    ensures Expand("$$1$2", ["m", "2x", "y"], OneFirst) == "yxy"
    ensures Expand("$$1$2", ["m", "2x", "y"], TwoFirst) == "$2xy"
  {
    PlaceholdersDollarOneTwo();
    VisitOrdersDollar();
    DollarReplaceRuns();
  }

  /** The arguments of `DollarDependsOnOrder` hold no `$`. */
  lemma DollarArgsPlain()
    ensures NoDollar(["m", "2x", "y"])
  {
    var args := ["m", "2x", "y"];
    forall i, j | 0 <= i < |args| && 0 <= j < |args[i]| ensures args[i][j] != '$' {
      assert i == 0 || i == 1 || i == 2;
    }
  }

  lemma VisitOrdersDollar()
    ensures VisitOrder("$$1$2", OneFirst) == ["$1", "$2"]
    ensures VisitOrder("$$1$2", TwoFirst) == ["$2", "$1"]
  {
    PlaceholdersDollarOneTwo();
    VisitTwo("$$1$2", "$1", "$2", OneFirst);
    VisitTwo("$$1$2", "$1", "$2", TwoFirst);
  }

  /** The two orders of visiting `$1` and `$2` in `$$1$2`, step by step. */
  lemma DollarReplaceRuns()
    ensures ReplaceAll("$$1$2", ["$1", "$2"], ["m", "2x", "y"]) == "yxy"
    ensures ReplaceAll("$$1$2", ["$2", "$1"], ["m", "2x", "y"]) == "$2xy"
  {
    var e: string := [];
    assert Replace("2", "$1", "2x") == "2";
    assert Replace("$2", "$1", "2x") == "$2" by { assert "$2"[1..] == "2"; }
    assert Replace("$1$2", "$1", "2x") == "2x$2" by { assert "$1$2"[..2] == "$1" && "$1$2"[2..] == "$2"; }
    assert Replace("$$1$2", "$1", "2x") == "$2x$2" by { assert "$$1$2"[..2] != "$1" && "$$1$2"[1..] == "$1$2"; }
    assert Replace(e, "$2", "y") == e;
    assert Replace("$2", "$2", "y") == "y" by { assert "$2"[..2] == "$2" && "$2"[2..] == e; }
    assert Replace("x$2", "$2", "y") == "xy" by { assert "x$2"[..2] != "$2" && "x$2"[1..] == "$2"; }
    assert Replace("$2x$2", "$2", "y") == "yxy" by { assert "$2x$2"[..2] == "$2" && "$2x$2"[2..] == "x$2"; }
    assert Replace("1$2", "$2", "y") == "1y" by { assert "1$2"[..2] != "$2" && "1$2"[1..] == "$2"; }
    assert Replace("$1$2", "$2", "y") == "$1y" by { assert "$1$2"[..2] != "$2" && "$1$2"[1..] == "1$2"; }
    assert Replace("$$1$2", "$2", "y") == "$$1y" by { assert "$$1$2"[..2] != "$2" && "$$1$2"[1..] == "$1$2"; }
    assert Replace("y", "$1", "2x") == "y";
    assert Replace("$1y", "$1", "2x") == "2xy" by { assert "$1y"[..2] == "$1" && "$1y"[2..] == "y"; }
    assert Replace("$$1y", "$1", "2x") == "$2xy" by { assert "$$1y"[..2] != "$1" && "$$1y"[1..] == "$1y"; }
    assert ["$1", "$2"][1..] == ["$2"] && ["$2", "$1"][1..] == ["$1"];
  }
}

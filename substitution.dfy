/** Positional substitution: `expand` of the source, which replaces every
    `$<digits>` placeholder of a macro's template by the argument it names. */
module Substitution {
  import opened Text

  // ---------------------------------------------------------------------
  // Finding placeholders: the matches of the regular expression `\$[0-9]+`
  // ---------------------------------------------------------------------

  /** Length of the run of digits at the start of `s`. */
  function DigitRun(s: string): (n: nat)
    ensures n <= |s|
    ensures forall i :: 0 <= i < n ==> IsDigit(s[i])
    ensures n < |s| ==> !IsDigit(s[n])
  {
    if s != [] && IsDigit(s[0]) then 1 + DigitRun(s[1..]) else 0
  }

  /** `s` starts with a `$` followed by a digit, so a match begins here. */
  predicate StartsPlaceholder(s: string) {
    |s| >= 2 && s[0] == '$' && IsDigit(s[1])
  }

  /** A `$` followed by one or more digits. */
  predicate IsPlaceholder(p: string) {
    |p| >= 2 && p[0] == '$' && forall i :: 1 <= i < |p| ==> IsDigit(p[i])
  }

  /** Decimal value of a string of digits. */
  function DigitsValue(ds: string): nat
    requires forall i :: 0 <= i < |ds| ==> IsDigit(ds[i])
  {
    if ds == [] then 0 else DigitsValue(ds[..|ds| - 1]) * 10 + DigitValue(ds[|ds| - 1])
  }

  /** The argument index a placeholder names (`idx[1..].parse::<usize>()`). */
  function Index(p: string): nat
    requires IsPlaceholder(p)
  {
    DigitsValue(p[1..])
  }

  /** The matches of `\$[0-9]+` in `s`, leftmost first, without overlap and
      each as long as possible, as a regular-expression scan finds them. */
  function Matches(s: string): (ps: seq<string>)
    ensures forall i :: 0 <= i < |ps| ==> IsPlaceholder(ps[i])
    decreases |s|
  {
    if |s| == 0 then []
    else if StartsPlaceholder(s) then
      var n := 1 + DigitRun(s[1..]);
      [s[..n]] + Matches(s[n..])
    else Matches(s[1..])
  }

  /** No `$` of `s` is directly followed by a digit. */
  predicate NoPlaceholders(s: string) {
    forall i :: 0 <= i < |s| - 1 && s[i] == '$' ==> !IsDigit(s[i + 1])
  }

  lemma {:induction false} MatchesEmpty(s: string)
    ensures Matches(s) == [] <==> NoPlaceholders(s)
    decreases |s|
  {
    if |s| == 0 {
    } else if StartsPlaceholder(s) {
      assert !NoPlaceholders(s) by { assert s[0] == '$' && IsDigit(s[0 + 1]); }
    } else {
      MatchesEmpty(s[1..]);
      if NoPlaceholders(s[1..]) {
        forall i | 0 <= i < |s| - 1 && s[i] == '$' ensures !IsDigit(s[i + 1]) {
          if i > 0 { assert s[1..][i - 1] == s[i]; }
        }
      } else {
        var i :| 0 <= i < |s[1..]| - 1 && s[1..][i] == '$' && IsDigit(s[1..][i + 1]);
        assert s[i + 1] == '$' && IsDigit(s[i + 1 + 1]);
      }
    }
  }

  /** Every placeholder of `s` names an argument below `n`; otherwise
      `args[idx_int]` would panic. */
  predicate ExpandSafe(s: string, n: nat) {
    forall i :: 0 <= i < |Matches(s)| ==> Index(Matches(s)[i]) < n
  }

  /** A character other than `$` is passed over by the scan and copied by
      the substitution. */
  lemma ScanOther(c: char, rest: string, args: seq<string>)
    requires c != '$'
    ensures Matches([c] + rest) == Matches(rest)
    ensures SimpleTemplate([c] + rest) == SimpleTemplate(rest)
    ensures ExpandSafe(rest, |args|) ==>
      ExpandSafe([c] + rest, |args|) && SubstAll([c] + rest, args) == [c] + SubstAll(rest, args)
  {
    assert ([c] + rest)[1..] == rest;
  }

  /** A `$` and a single digit form a placeholder that the substitution
      replaces by the argument the digit names. */
  lemma ScanPlaceholder(d: char, rest: string, args: seq<string>)
    requires IsDigit(d) && (rest == [] || !IsDigit(rest[0]))
    ensures IsPlaceholder(['$', d]) && Index(['$', d]) == DigitValue(d)
    ensures Matches(['$', d] + rest) == [['$', d]] + Matches(rest)
    ensures SimpleTemplate(['$', d] + rest) == SimpleTemplate(rest)
    ensures ExpandSafe(rest, |args|) && DigitValue(d) < |args| ==>
      ExpandSafe(['$', d] + rest, |args|) &&
      SubstAll(['$', d] + rest, args) == args[DigitValue(d)] + SubstAll(rest, args)
  {
    var s := ['$', d] + rest;
    assert s[1..][1..] == rest;
    assert DigitRun(s[1..]) == 1;
    assert s[..2] == ['$', d] && s[2..] == rest;
    assert ['$', d][1..] == [d] && [d][..0] == [];
    assert DigitsValue([d]) == DigitValue(d);
    var ms := Matches(s);
    assert ms == [['$', d]] + Matches(rest);
    if ExpandSafe(rest, |args|) && DigitValue(d) < |args| {
      forall i | 0 <= i < |ms| ensures Index(ms[i]) < |args| {
        if i > 0 { assert ms[i] == Matches(rest)[i - 1]; }
      }
      assert SubstAll(s, args) == args[Index(s[..2])] + SubstAll(s[2..], args);
    }
  }

  // ---------------------------------------------------------------------
  // The set of placeholders and the order in which it is visited
  // ---------------------------------------------------------------------

  /** The matches without repetitions, in order of first occurrence: the
      contents of the `HashSet` the source collects them into. */
  function Distinct(ps: seq<string>): (ds: seq<string>)
    ensures forall x :: x in ds <==> x in ps
    ensures forall i, j :: 0 <= i < j < |ds| ==> ds[i] != ds[j]
  {
    if ps == [] then []
    else
      var rest := Distinct(ps[..|ps| - 1]);
      assert ps == ps[..|ps| - 1] + [ps[|ps| - 1]];
      if ps[|ps| - 1] in rest then rest else rest + [ps[|ps| - 1]]
  }

  function Placeholders(s: string): seq<string> {
    Distinct(Matches(s))
  }

  /** The iteration order of a hash set is unspecified. It is modelled by a
      rank that the hasher gives every element of a given set; the set is
      visited in order of increasing rank. */
  type Rank = (seq<string>, string) -> nat

  predicate SortedBy(s: seq<string>, key: string -> nat) {
    forall i, j :: 0 <= i < j < |s| ==> key(s[i]) <= key(s[j])
  }

  function Insert(x: string, s: seq<string>, key: string -> nat): (r: seq<string>)
    ensures multiset(r) == multiset(s) + multiset{x}
    ensures |r| == |s| + 1
    ensures r[0] == x || (s != [] && r[0] == s[0])
    ensures SortedBy(s, key) ==> SortedBy(r, key)
  {
    if s == [] then [x]
    else if key(x) < key(s[0]) then [x] + s
    else
      var tail := Insert(x, s[1..], key);
      assert s == [s[0]] + s[1..];
      [s[0]] + tail
  }

  /** A stable sort of `s` by `key`. */
  function SortBy(s: seq<string>, key: string -> nat): (r: seq<string>)
    ensures multiset(r) == multiset(s)
    ensures SortedBy(r, key)
  {
    if s == [] then []
    else
      assert s == s[..|s| - 1] + [s[|s| - 1]];
      Insert(s[|s| - 1], SortBy(s[..|s| - 1], key), key)
  }

  /** The order in which `expand` visits the placeholders of `s`. */
  function VisitOrder(s: string, rank: Rank): (order: seq<string>)
    ensures forall x :: x in order <==> x in Matches(s)
    ensures |order| == |Placeholders(s)|
    ensures forall i, j :: 0 <= i < j < |order| ==> rank(Placeholders(s), order[i]) <= rank(Placeholders(s), order[j])
  {
    var ds := Placeholders(s);
    var order := SortBy(ds, p => rank(ds, p));
    assert forall x :: x in order <==> x in multiset(order);
    order
  }

  // ---------------------------------------------------------------------
  // Replacement
  // ---------------------------------------------------------------------

  /** `s.replace(pat, rep)`: every leftmost, non-overlapping occurrence of
      `pat` in `s` is replaced by `rep`. */
  function Replace(s: string, pat: string, rep: string): (r: string)
    requires pat != []
    decreases |s|
  {
    if |s| < |pat| then s
    else if s[..|pat|] == pat then rep + Replace(s[|pat|..], pat, rep)
    else [s[0]] + Replace(s[1..], pat, rep)
  }

  /** A character that cannot start `pat` passes through `Replace`. */
  lemma ReplaceCons(c: char, s: string, pat: string, rep: string)
    requires pat != [] && c != pat[0]
    ensures Replace([c] + s, pat, rep) == [c] + Replace(s, pat, rep)
  {
    var t := [c] + s;
    assert t[1..] == s;
    if |t| >= |pat| { assert t[..|pat|][0] == c; }
  }

  /** Text free of `pat[0]` passes through `Replace`. */
  lemma {:induction false} ReplaceSkip(x: string, s: string, pat: string, rep: string)
    requires pat != []
    requires forall i :: 0 <= i < |x| ==> x[i] != pat[0]
    ensures Replace(x + s, pat, rep) == x + Replace(s, pat, rep)
    decreases |x|
  {
    if x != [] {
      calc {
        Replace(x + s, pat, rep);
        { assert x + s == [x[0]] + (x[1..] + s); }
        Replace([x[0]] + (x[1..] + s), pat, rep);
        { ReplaceCons(x[0], x[1..] + s, pat, rep); }
        [x[0]] + Replace(x[1..] + s, pat, rep);
        { ReplaceSkip(x[1..], s, pat, rep); }
        [x[0]] + (x[1..] + Replace(s, pat, rep));
        { assert x == [x[0]] + x[1..]; }
        x + Replace(s, pat, rep);
      }
    } else {
      assert x + s == s;
    }
  }

  /** All placeholders in `order` name an existing argument. */
  predicate OrderSafe(order: seq<string>, n: nat) {
    forall i :: 0 <= i < |order| ==> IsPlaceholder(order[i]) && Index(order[i]) < n
  }

  /** The loop of `expand`: `result = result.replace(idx, &args[n])` for
      each placeholder `idx` in turn. */
  function ReplaceAll(x: string, order: seq<string>, args: seq<string>): string
    requires OrderSafe(order, |args|)
    decreases |order|
  {
    if order == [] then x
    else ReplaceAll(Replace(x, order[0], args[Index(order[0])]), order[1..], args)
  }

  // ---------------------------------------------------------------------
  // Reference semantics: one left-to-right pass
  // ---------------------------------------------------------------------

  /** Every placeholder of `s`, scanned once from left to right, is replaced
      by the argument it names; replacement text is never scanned again. */
  function SubstAll(s: string, args: seq<string>): string
    requires ExpandSafe(s, |args|)
    decreases |s|
  {
    if |s| == 0 then []
    else if StartsPlaceholder(s) then
      var n := 1 + DigitRun(s[1..]);
      assert Matches(s)[0] == s[..n];
      assert forall i :: 0 <= i < |Matches(s[n..])| ==> Matches(s[n..])[i] == Matches(s)[i + 1];
      args[Index(s[..n])] + SubstAll(s[n..], args)
    else [s[0]] + SubstAll(s[1..], args)
  }

  /** Templates whose replacements cannot interfere: every placeholder has a
      single digit, and no `$` that starts no placeholder is followed by
      another `$`. */
  predicate SimpleTemplate(s: string)
    decreases |s|
  {
    if |s| == 0 then true
    else if StartsPlaceholder(s) then (|s| == 2 || !IsDigit(s[2])) && SimpleTemplate(s[2..])
    else if s[0] == '$' then (|s| == 1 || s[1] != '$') && SimpleTemplate(s[1..])
    else SimpleTemplate(s[1..])
  }

  predicate NoDollar(args: seq<string>) {
    forall i, j :: 0 <= i < |args| && 0 <= j < |args[i]| ==> args[i][j] != '$'
  }

  /** `s` with the single-digit placeholders in `done` already replaced. */
  ghost function Partial(s: string, args: seq<string>, done: set<string>): string
    decreases |s|
  {
    if |s| == 0 then []
    else if StartsPlaceholder(s) then
      var p := s[..2];
      (if p in done && Index(p) < |args| then args[Index(p)] else p) + Partial(s[2..], args, done)
    else [s[0]] + Partial(s[1..], args, done)
  }

  lemma {:induction false} PartialNone(s: string, args: seq<string>)
    ensures Partial(s, args, {}) == s
    decreases |s|
  {
    if |s| > 0 {
      if StartsPlaceholder(s) {
        PartialNone(s[2..], args);
        assert s == s[..2] + s[2..];
      } else {
        PartialNone(s[1..], args);
        assert s == [s[0]] + s[1..];
      }
    }
  }

  lemma {:induction false} SimpleMatches(s: string)
    requires SimpleTemplate(s)
    ensures forall i :: 0 <= i < |Matches(s)| ==> |Matches(s)[i]| == 2
    decreases |s|
  {
    if |s| > 0 {
      if StartsPlaceholder(s) {
        assert DigitRun(s[1..]) == 1 by {
          assert s[1..][0] == s[1];
          if |s| > 2 { assert s[1..][1..][0] == s[2]; }
        }
        SimpleMatches(s[2..]);
      } else {
        SimpleMatches(s[1..]);
      }
    }
  }

  /** One step of the loop of `expand` adds one placeholder to those replaced. */
  lemma {:induction false} ReplaceStep(s: string, args: seq<string>, done: set<string>, p: string)
    requires SimpleTemplate(s) && NoDollar(args)
    requires IsPlaceholder(p) && |p| == 2 && Index(p) < |args|
    ensures Replace(Partial(s, args, done), p, args[Index(p)]) == Partial(s, args, done + {p})
    decreases |s|
  {
    var rep := args[Index(p)];
    if |s| == 0 {
    } else if StartsPlaceholder(s) {
      var q := s[..2];
      var z := Partial(s[2..], args, done);
      ReplaceStep(s[2..], args, done, p);
      if q in done && Index(q) < |args| {
        var a := args[Index(q)];
        assert forall i :: 0 <= i < |a| ==> a[i] != p[0];
        ReplaceSkip(a, z, p, rep);
      } else if q == p {
        var t := q + z;
        assert t[..|p|] == p && t[|p|..] == z;
      } else {
        assert q[1] != '$';
        calc {
          Replace(q + z, p, rep);
          { assert q + z == [q[0]] + ([q[1]] + z); assert (q + z)[..|p|] == q; }
          [q[0]] + Replace([q[1]] + z, p, rep);
          { ReplaceCons(q[1], z, p, rep); }
          [q[0]] + ([q[1]] + Replace(z, p, rep));
          { assert q == [q[0]] + [q[1]]; }
          q + Replace(z, p, rep);
        }
      }
    } else if s[0] == '$' {
      var z := Partial(s[1..], args, done);
      ReplaceStep(s[1..], args, done, p);
      if |s| > 1 {
        assert s[1..][0] == s[1] && s[1] != '$' && !IsDigit(s[1]);
        assert !StartsPlaceholder(s[1..]);
        assert z == [s[1]] + Partial(s[2..], args, done) by { assert s[1..][1..] == s[2..]; }
        var t := [s[0]] + z;
        if |t| >= |p| { assert t[..|p|][1] == s[1]; }
        assert t[1..] == z;
      }
    } else {
      ReplaceStep(s[1..], args, done, p);
      ReplaceCons(s[0], Partial(s[1..], args, done), p, rep);
    }
  }

  lemma {:induction false} ReplaceAllPartial(s: string, args: seq<string>, done: set<string>, order: seq<string>)
    requires SimpleTemplate(s) && NoDollar(args) && OrderSafe(order, |args|)
    requires forall i :: 0 <= i < |order| ==> |order[i]| == 2
    ensures ReplaceAll(Partial(s, args, done), order, args) == Partial(s, args, done + (set p | p in order))
    decreases |order|
  {
    if order == [] {
      assert done + (set p | p in order) == done;
    } else {
      ReplaceStep(s, args, done, order[0]);
      ReplaceAllPartial(s, args, done + {order[0]}, order[1..]);
      assert done + {order[0]} + (set p | p in order[1..]) == done + (set p | p in order);
    }
  }

  lemma {:induction false} PartialAll(s: string, args: seq<string>, done: set<string>)
    requires SimpleTemplate(s) && ExpandSafe(s, |args|)
    requires forall i :: 0 <= i < |Matches(s)| ==> Matches(s)[i] in done
    ensures Partial(s, args, done) == SubstAll(s, args)
    decreases |s|
  {
    if |s| > 0 {
      if StartsPlaceholder(s) {
        assert DigitRun(s[1..]) == 1 by {
          assert s[1..][0] == s[1];
          if |s| > 2 { assert s[1..][1..][0] == s[2]; }
        }
        assert Matches(s)[0] == s[..2];
        assert forall i :: 0 <= i < |Matches(s[2..])| ==> Matches(s[2..])[i] == Matches(s)[i + 1];
        PartialAll(s[2..], args, done);
      } else {
        PartialAll(s[1..], args, done);
      }
    }
  }

  /** For a simple template and arguments without `$`, replacing the
      placeholders one after another gives the one-pass substitution,
      whatever order they are visited in. */
  lemma ReplaceAllIsSubstitution(s: string, args: seq<string>, order: seq<string>)
    requires SimpleTemplate(s) && NoDollar(args) && ExpandSafe(s, |args|)
    requires forall x :: x in order <==> x in Matches(s)
    ensures OrderSafe(order, |args|)
    ensures ReplaceAll(s, order, args) == SubstAll(s, args)
  {
    SimpleMatches(s);
    forall i | 0 <= i < |order| ensures IsPlaceholder(order[i]) && Index(order[i]) < |args| && |order[i]| == 2 {
      assert order[i] in order;
      var k :| 0 <= k < |Matches(s)| && Matches(s)[k] == order[i];
    }
    PartialNone(s, args);
    ReplaceAllPartial(s, args, {}, order);
    PartialAll(s, args, {} + (set p | p in order));
  }

  // ---------------------------------------------------------------------
  // expand
  // ---------------------------------------------------------------------

  lemma VisitOrderSafe(s: string, n: nat, rank: Rank)
    requires ExpandSafe(s, n)
    ensures OrderSafe(VisitOrder(s, rank), n)
  {
    var order := VisitOrder(s, rank);
    forall i | 0 <= i < |order| ensures IsPlaceholder(order[i]) && Index(order[i]) < n {
      assert order[i] in order;
      var k :| 0 <= k < |Matches(s)| && Matches(s)[k] == order[i];
    }
  }

  lemma ExpandFacts(val: string, args: seq<string>, rank: Rank)
    requires ExpandSafe(val, |args|)
    ensures OrderSafe(VisitOrder(val, rank), |args|)
    ensures NoPlaceholders(val) ==> VisitOrder(val, rank) == []
    ensures SimpleTemplate(val) && NoDollar(args) ==>
              ReplaceAll(val, VisitOrder(val, rank), args) == SubstAll(val, args)
  {
    VisitOrderSafe(val, |args|, rank);
    MatchesEmpty(val);
    if SimpleTemplate(val) && NoDollar(args) {
      ReplaceAllIsSubstitution(val, args, VisitOrder(val, rank));
    }
  }

  /** `expand(val, args)`: the placeholders of `val`, visited in the order
      the hash set gives them, each replaced at every occurrence. */
  function Expand(val: string, args: seq<string>, rank: Rank): (r: string)
    requires ExpandSafe(val, |args|)
    ensures NoPlaceholders(val) ==> r == val
    ensures SimpleTemplate(val) && NoDollar(args) ==> r == SubstAll(val, args)
  {
    ExpandFacts(val, args, rank);
    ReplaceAll(val, VisitOrder(val, rank), args)
  }
}

/** SQL statements as plain text plus a positional argument list, and the two
    things the model reads off the text: the positional placeholders `$k` in
    order, and the occurrences of the keyword `AND`. What a database does with
    the text is outside the model. */
module SqlText {
  import opened JsValues
  import opened Decimal

  /** A statement as handed to the database client: the text and the values
      bound to `$1`, `$2`, ... in that order. */
  datatype Statement = Statement(sql: string, params: seq<Value>)

  /** Concatenation is associative (stated for the shape the builders need). */
  lemma Regroup(a: string, b: string, c: string, d: string)
    ensures a + (b + c + d) == a + b + c + d
  {
  }

  /** The longest run of digits at the start of `s`. */
  function DigitRun(s: string): (r: string)
    ensures |r| <= |s| && r == s[..|r|] && AllDigits(r)
    ensures |r| < |s| ==> !IsDigit(s[|r|])
  {
    if s != [] && IsDigit(s[0]) then [s[0]] + DigitRun(s[1..]) else []
  }

  /** The numbers of the positional placeholders in `s`, left to right: every
      `$` followed by at least one digit, read as the decimal number its digit
      run denotes. */
  function Placeholders(s: string): seq<nat>
    decreases |s|
  {
    if s == [] then []
    else if s[0] == '$' && |DigitRun(s[1..])| > 0 then
      [DecimalValue(DigitRun(s[1..]))] + Placeholders(s[1 + |DigitRun(s[1..])|..])
    else Placeholders(s[1..])
  }

  /** The numbers `lo, lo + 1, ..., lo + n - 1`. */
  function Numbers(lo: nat, n: nat): (r: seq<nat>)
    ensures |r| == n
  {
    seq(n, i => lo + i)
  }

  /** The placeholders and the arguments are in step: the text holds exactly
      `$1 .. $n`, each once and in increasing order, where `n` is the number of
      arguments. */
  ghost predicate InSync(st: Statement) {
    Placeholders(st.sql) == Numbers(1, |st.params|)
  }

  /** A digit run is not extended past a non-digit. */
  lemma {:induction false} DigitRunAppend(a: string, b: string)
    requires b == [] || !IsDigit(b[0])
    ensures DigitRun(a + b) == DigitRun(a)
  {
    if a != [] {
      if IsDigit(a[0]) {
        assert (a + b)[1..] == a[1..] + b;
        DigitRunAppend(a[1..], b);
      }
    }
  }

  /** Scanning distributes over concatenation at any point where the right part
      does not start with a digit (a placeholder number cannot run across). */
  lemma {:induction false} PlaceholdersAppend(a: string, b: string)
    requires b == [] || !IsDigit(b[0])
    ensures Placeholders(a + b) == Placeholders(a) + Placeholders(b)
    decreases |a|
  {
    if a == [] {
      assert a + b == b;
    } else {
      var ab := a + b;
      assert ab[0] == a[0] && ab[1..] == a[1..] + b;
      DigitRunAppend(a[1..], b);
      if a[0] == '$' && |DigitRun(a[1..])| > 0 {
        PlaceholdersAppendAfterRun(a, b);
      } else {
        PlaceholdersAppend(a[1..], b);
      }
    }
  }

  /** The step of `PlaceholdersAppend` where `a` starts with a placeholder. */
  lemma {:induction false} PlaceholdersAppendAfterRun(a: string, b: string)
    requires b == [] || !IsDigit(b[0])
    requires a != [] && a[0] == '$' && |DigitRun(a[1..])| > 0
    requires DigitRun((a + b)[1..]) == DigitRun(a[1..])
    ensures Placeholders(a + b) == Placeholders(a) + Placeholders(b)
    decreases |a|, 0
  {
    var r := DigitRun(a[1..]);
    var rest := a[1 + |r|..];
    var ab := a + b;
    assert ab[0] == '$';
    SliceAfterRun(a, b, 1 + |r|);
    PlaceholdersAtDollar(ab);
    PlaceholdersAtDollar(a);
    PlaceholdersAppend(rest, b);
    ConsAssoc(DecimalValue(r), Placeholders(rest), Placeholders(b));
  }

  lemma ConsAssoc(v: nat, x: seq<nat>, y: seq<nat>)
    ensures [v] + (x + y) == [v] + x + y
  {
  }

  /** Dropping a prefix of `a` from `a + b`. */
  lemma SliceAfterRun(a: string, b: string, i: nat)
    requires i <= |a|
    ensures (a + b)[i..] == a[i..] + b
  {
  }

  /** The scanner at a `$` that starts a placeholder. */
  lemma PlaceholdersAtDollar(s: string)
    requires s != [] && s[0] == '$' && |DigitRun(s[1..])| > 0
    ensures Placeholders(s) == [DecimalValue(DigitRun(s[1..]))] + Placeholders(s[1 + |DigitRun(s[1..])|..])
  {
  }

  /** Text without a `$` contributes no placeholder. */
  lemma {:induction false} PlaceholdersSkip(a: string, b: string)
    requires '$' !in a
    ensures Placeholders(a + b) == Placeholders(b)
    decreases |a|
  {
    if a == [] {
      assert a + b == b;
    } else {
      assert (a + b)[1..] == a[1..] + b;
      PlaceholdersSkip(a[1..], b);
    }
  }

  /** `$` followed by the numeral of `k` is the one placeholder `$k`. */
  lemma PlaceholderOfNumeral(k: nat)
    ensures Placeholders("$" + NatToString(k)) == [k]
  {
    var d := NatToString(k);
    var s := "$" + d;
    NumeralIsItsRun(d);
    assert s[1..] == d;
    PlaceholdersAtDollar(s);
    assert s[1 + |d|..] == [];
    DecimalValueOfNatToString(k);
  }

  /** A non-empty run of digits is its own digit run. */
  lemma NumeralIsItsRun(d: string)
    requires |d| > 0 && AllDigits(d)
    ensures DigitRun(d) == d
  {
  }

  /** Appending a clause `p` that ends in `$`, followed by the numeral of the
      next argument position, adds exactly that placeholder. */
  lemma AppendNumberedClause(q: string, p: string, k: nat)
    requires |p| > 0 && !IsDigit(p[0]) && p[|p| - 1] == '$' && '$' !in p[..|p| - 1]
    ensures Placeholders(q + p + NatToString(k)) == Placeholders(q) + [k]
  {
    var d := NatToString(k);
    var pre := p[..|p| - 1];
    assert q + p + d == q + (p + d);
    assert p + d == pre + ("$" + d);
    PlaceholdersAppend(q, p + d);
    PlaceholdersSkip(pre, "$" + d);
    PlaceholderOfNumeral(k);
  }

  /** Appending a clause numbered `n` to a text holding `$1 .. $(n - 1)` gives a
      text holding `$1 .. $n`. */
  lemma NumberedStep(q: string, p: string, n: nat)
    requires |p| > 0 && !IsDigit(p[0]) && p[|p| - 1] == '$' && '$' !in p[..|p| - 1]
    requires n > 0 && Placeholders(q) == Numbers(1, n - 1)
    ensures Placeholders(q + p + NatToString(n)) == Numbers(1, n)
  {
    AppendNumberedClause(q, p, n);
    assert Numbers(1, n - 1) + [n] == Numbers(1, n);
  }

  /** The list `$1, $2, ..., $n` of a VALUES clause. */
  function PlaceholderList(n: nat): string
  {
    if n == 0 then ""
    else if n == 1 then "$1"
    else PlaceholderList(n - 1) + ", $" + NatToString(n)
  }

  /** The list `$1, ..., $n` holds exactly the placeholders `1 .. n`, in order. */
  lemma {:induction false} PlaceholderListNumbers(n: nat)
    ensures Placeholders(PlaceholderList(n)) == Numbers(1, n)
  {
    if n == 1 {
      assert PlaceholderList(1) == "$" + NatToString(1);
      PlaceholderOfNumeral(1);
    } else if n > 1 {
      PlaceholderListNumbers(n - 1);
      AppendNumberedClause(PlaceholderList(n - 1), ", $", n);
      assert Numbers(1, n - 1) + [n] == Numbers(1, n);
    }
  }

  /** The column names of an INSERT, separated by `, `. */
  function CommaJoin(names: seq<string>): string
  {
    if |names| == 0 then ""
    else if |names| == 1 then names[0]
    else CommaJoin(names[..|names| - 1]) + ", " + names[|names| - 1]
  }

  /** Names without a `$` join into a text without a `$`. */
  lemma {:induction false} JoinWithoutDollar(names: seq<string>)
    requires forall i :: 0 <= i < |names| ==> '$' !in names[i]
    ensures '$' !in CommaJoin(names)
  {
    if |names| > 1 {
      JoinWithoutDollar(names[..|names| - 1]);
    }
  }

  /** The number of occurrences of the keyword `AND` in `s`. */
  function CountAnd(s: string): nat
    decreases |s|
  {
    if |s| < 3 then 0 else (if s[..3] == "AND" then 1 else 0) + CountAnd(s[1..])
  }

  /** An `AND` cannot straddle a boundary at which the right part starts with a space. */
  lemma {:induction false} CountAndAppend(a: string, b: string)
    requires b == [] || b[0] == ' '
    ensures CountAnd(a + b) == CountAnd(a) + CountAnd(b)
    decreases |a|
  {
    if a == [] {
      assert a + b == b;
    } else if |a + b| >= 3 {
      var ab := a + b;
      assert ab[1..] == a[1..] + b;
      CountAndAppend(a[1..], b);
      if |a| < 3 {
        assert ab[|a|] == ' ';
        assert ab[..3] != "AND";
      } else {
        assert ab[..3] == a[..3];
      }
    }
  }

  /** Text without an upper-case `D` holds no `AND`. */
  lemma {:induction false} CountAndWithoutD(s: string)
    requires 'D' !in s
    ensures CountAnd(s) == 0
    decreases |s|
  {
    if |s| >= 3 {
      assert s[2] == s[..3][2];
      CountAndWithoutD(s[1..]);
    }
  }

  /** A right part without an upper-case `D` adds no `AND`, not even one
      starting in the left part. */
  lemma {:induction false} CountAndNoDTail(a: string, b: string)
    requires 'D' !in b
    ensures CountAnd(a + b) == CountAnd(a)
    decreases |a|
  {
    var ab := a + b;
    if a == [] {
      assert ab == b;
      CountAndWithoutD(b);
    } else {
      assert ab[1..] == a[1..] + b;
      CountAndNoDTail(a[1..], b);
      if |ab| >= 3 {
        if |a| < 3 {
          assert ab[2] == b[2 - |a|];
          assert ab[..3][2] != 'D';
        } else {
          assert ab[..3] == a[..3];
        }
      }
    }
  }

  /** A numeral holds no upper-case `D`. */
  lemma NumeralWithoutD(n: nat)
    ensures 'D' !in NatToString(n)
  {
  }

  /** A statement text made of a `$`-free head, the list `$1, ..., $n` and a
      `$`-free tail that does not start with a digit holds exactly the
      placeholders `1 .. n`. */
  lemma FixedListInSync(head: string, n: nat, tail: string)
    requires '$' !in head && '$' !in tail
    requires tail == [] || !IsDigit(tail[0])
    ensures Placeholders(head + PlaceholderList(n) + tail) == Numbers(1, n)
  {
    assert head + PlaceholderList(n) + tail == head + (PlaceholderList(n) + tail);
    PlaceholdersSkip(head, PlaceholderList(n) + tail);
    PlaceholdersAppend(PlaceholderList(n), tail);
    PlaceholdersSkip(tail, []);
    assert tail + [] == tail;
    PlaceholderListNumbers(n);
  }
}

/** SQL string literals: sqlStringLiteral and the two strings.ReplaceAll it rests on. */
module Literal {
  import opened Text
  import opened Scanner

  /** strings.ReplaceAll(s, "'", "''"). */
  function DoubleQuotes(s: string): string {
    if s == [] then []
    else if s[0] == '\'' then ['\'', '\''] + DoubleQuotes(s[1..])
    else [s[0]] + DoubleQuotes(s[1..])
  }

  /** strings.ReplaceAll(s, "''", "'"). */
  function HalveQuotes(s: string): string
    decreases |s|
  {
    if s == [] then []
    else if |s| >= 2 && s[0] == '\'' && s[1] == '\'' then ['\''] + HalveQuotes(s[2..])
    else [s[0]] + HalveQuotes(s[1..])
  }

  function SqlStringLiteral(s: string): string {
    ['\''] + (DoubleQuotes(s) + ['\''])
  }

  /** Text that begins and ends in a quote. */
  predicate IsQuoted(s: string) {
    |s| >= 2 && s[0] == '\'' && s[|s| - 1] == '\''
  }

  /** Unescaping undoes escaping, for text over any characters. */
  lemma {:induction false} HalveDoubled(s: string)
    ensures HalveQuotes(DoubleQuotes(s)) == s
  {
    if s != [] {
      var d := DoubleQuotes(s);
      HalveDoubled(s[1..]);
      if s[0] == '\'' {
        assert d[2..] == DoubleQuotes(s[1..]);
      } else {
        assert d[1..] == DoubleQuotes(s[1..]);
      }
    }
  }

  /** Every quote of the text stands in a doubled pair, read from the left. */
  predicate Paired(t: string) {
    t == [] || (t[0] != '\'' && Paired(t[1..])) || (|t| >= 2 && t[0] == '\'' && t[1] == '\'' && Paired(t[2..]))
  }

  /** Escaping undoes unescaping exactly when every quote is doubled. */
  lemma {:induction false} DoubledHalved(t: string)
    ensures DoubleQuotes(HalveQuotes(t)) == t <==> Paired(t)
    decreases |t|
  {
    if t != [] {
      var h := HalveQuotes(t);
      if |t| >= 2 && t[0] == '\'' && t[1] == '\'' {
        DoubledHalved(t[2..]);
        assert h[1..] == HalveQuotes(t[2..]);
        assert DoubleQuotes(h)[2..] == DoubleQuotes(h[1..]);
        assert t == ['\'', '\''] + t[2..];
      } else {
        DoubledHalved(t[1..]);
        assert h[1..] == HalveQuotes(t[1..]);
        if t[0] != '\'' {
          assert DoubleQuotes(h)[1..] == DoubleQuotes(h[1..]);
          assert t == [t[0]] + t[1..];
        } else {
          assert DoubleQuotes(h)[1] == '\'';
        }
      }
    }
  }

  lemma {:induction false} ScanDoubled(s: string, rest: string)
    ensures Scan(State(0, true), DoubleQuotes(s) + rest) == Scan(State(0, true), rest)
    ensures Stays(DoubleQuotes(s) + rest, State(0, true)) == Stays(rest, State(0, true))
    ensures Cut(DoubleQuotes(s) + rest, State(0, true)) == |DoubleQuotes(s)| + Cut(rest, State(0, true))
  {
    var d := DoubleQuotes(s) + rest;
    if s == [] {
      assert d == rest;
    } else {
      var t := DoubleQuotes(s[1..]) + rest;
      ScanDoubled(s[1..], rest);
      if s[0] == '\'' {
        assert d[1..] == ['\''] + t && d[1..][1..] == t;
      } else {
        assert d[1..] == t;
      }
    }
  }

  /** A literal is one argument: its commas, quotes and parentheses stay inside. */
  lemma LiteralIsArgument(s: string)
    ensures Argument(SqlStringLiteral(s)) && Tight(SqlStringLiteral(s))
  {
    var lit := SqlStringLiteral(s);
    assert lit[1..] == DoubleQuotes(s) + ['\''];
    ScanDoubled(s, ['\'']);
    assert ['\''][1..] == [];
  }

  /** A literal, plain text, and a quote that is never closed: nothing closes a parenthesis before. */
  lemma LiteralRunsOn(t: string, plain: string, rest: string)
    requires Plain(plain) && '\'' !in rest
    ensures var tail := SqlStringLiteral(t) + (plain + ("'" + rest)); Reach(tail, State(1, false)) == |tail|
  {
    hide Reach, Scan, Stays, Cut, DoubleQuotes, Plain;
    var up := State(1, false);
    var lit := SqlStringLiteral(t);
    LiteralIsArgument(t);
    PlainIsArgument(plain);
    StaysInside(lit, START);
    ScanShift(lit, START, 1);
    StaysInside(plain, START);
    ScanShift(plain, START, 1);
    QuoteRunsOn(rest, up);
    ReachAppend(up, plain, "'" + rest);
    ReachAppend(up, lit, plain + ("'" + rest));
  }

  lemma {:induction false} NothingToHalve(s: string)
    requires '\'' !in s
    ensures HalveQuotes(s) == s
  {
    if s != [] {
      NothingToHalve(s[1..]);
    }
  }

  /** A single quote between other characters is no escape. */
  lemma {:induction false} LoneQuote(a: string, b: string)
    requires '\'' !in a && b != [] && b[0] != '\''
    ensures HalveQuotes(a + (['\''] + b)) == a + (['\''] + HalveQuotes(b))
  {
    hide HalveQuotes;
    var s := a + (['\''] + b);
    HalveStep(s);
    if a == [] {
      assert s == ['\''] + b && s[1..] == b;
    } else {
      assert s[0] == a[0] && s[1..] == a[1..] + (['\''] + b);
      LoneQuote(a[1..], b);
      Assoc([a[0]], a[1..], ['\''] + HalveQuotes(b));
    }
  }

  lemma HalveStep(s: string)
    requires s != [] && (s[0] == '\'' ==> |s| >= 2 && s[1] != '\'')
    ensures HalveQuotes(s) == [s[0]] + HalveQuotes(s[1..])
  {
  }

  lemma {:induction false} LoneIsUnpaired(a: string, b: string)
    requires '\'' !in a && b != [] && b[0] != '\''
    ensures !Paired(a + (['\''] + b))
  {
    if a != [] {
      assert (a + (['\''] + b))[1..] == a[1..] + (['\''] + b);
      LoneIsUnpaired(a[1..], b);
    }
  }

  lemma {:induction false} NothingToDouble(s: string)
    requires '\'' !in s
    ensures DoubleQuotes(s) == s
  {
    if s != [] {
      NothingToDouble(s[1..]);
    }
  }
}

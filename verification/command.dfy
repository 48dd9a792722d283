/** Statement classification: leading keyword, result sets, command tags, placeholders. */
module Command {
  import opened Text
  import opened CallPattern

  // ------------------------------------------------------------ leading keyword

  /** The length of the first run of characters outside white space. */
  function WordLen(s: string): (n: nat)
    ensures n <= |s|
  {
    if s == [] || IsSpace(s[0]) then 0 else 1 + WordLen(s[1..])
  }

  /** strings.Fields. */
  function Fields(s: string): seq<string>
    decreases |s|
  {
    if s == [] then []
    else if IsSpace(s[0]) then Fields(s[1..])
    else [s[..WordLen(s)]] + Fields(s[WordLen(s)..])
  }

  /** strings.TrimLeft(f, "("). */
  function TrimParens(f: string): string {
    if f != [] && f[0] == '(' then TrimParens(f[1..]) else f
  }

  /** A statement without its leading white space and open parentheses. */
  function Bare(s: string): string {
    if s != [] && (IsSpace(s[0]) || s[0] == '(') then Bare(s[1..]) else s
  }

  /** The first word of the bare statement, in upper case. */
  function LeadingKeyword(query: string): string {
    ToUpper(Bare(query)[..WordLen(Bare(query))])
  }

  method FindLeadingKeyword(query: string) returns (kw: string)
    ensures kw == LeadingKeyword(query)
  {
    var fields := Fields(query);
    BareFields(query);
    for i := 0 to |fields|
      invariant Fields(query) == fields
      invariant FirstBare(fields) == FirstBare(fields[i..])
    {
      var f := TrimParens(fields[i]);
      if f != "" {
        return ToUpper(f);
      }
      assert fields[i..][1..] == fields[i + 1..];
    }
    assert fields[|fields|..] == [];
    return "";
  }

  function FirstBare(fields: seq<string>): string {
    if fields == [] then ""
    else if TrimParens(fields[0]) != "" then TrimParens(fields[0])
    else FirstBare(fields[1..])
  }

  /** Trimming field by field finds the same word as trimming the statement. */
  lemma {:induction false} BareFields(s: string)
    ensures FirstBare(Fields(s)) == Bare(s)[..WordLen(Bare(s))]
    decreases |s|
  {
    if s != [] {
      if IsSpace(s[0]) {
        BareFields(s[1..]);
      } else {
        var n := WordLen(s);
        var fs := Fields(s);
        assert fs[0] == s[..n] && fs[1..] == Fields(s[n..]);
        BareWord(s);
        if TrimParens(s[..n]) == "" {
          BareFields(s[n..]);
        }
      }
    }
  }

  lemma {:induction false} BareWord(s: string)
    ensures var n := WordLen(s); var t := TrimParens(s[..n]);
            if t == "" then Bare(s) == Bare(s[n..]) else Bare(s)[..WordLen(Bare(s))] == t
    decreases |s|
  {
    var n := WordLen(s);
    if n > 0 {
      var w := s[..n];
      assert w[0] == s[0] && w[1..] == s[1..][..n - 1];
      if s[0] == '(' {
        BareWord(s[1..]);
        assert s[1..][n - 1..] == s[n..];
      } else {
        assert Bare(s) == s;
      }
    } else {
      assert s[n..] == s;
    }
  }

  // ----------------------------------------------------------- classification

  /** The regular expression (?i)\bWORD\b. */
  predicate HasWord(s: string, word: string, boundary: bool) {
    s != [] && (
      (boundary && Spells(s, word) && (|s| <= |word| || !IsWord(s[|word|]))) ||
      HasWord(s[1..], word, !IsWord(s[0])))
  }

  predicate IsRowReturning(query: string) {
    LeadingKeyword(query) in {"SELECT", "VALUES", "WITH", "SHOW", "EXPLAIN", "TABLE", "PRAGMA"} ||
    HasWord(query, "returning", true)
  }

  predicate IsTxBegin(kw: string) {
    kw == "BEGIN" || kw == "START"
  }

  predicate IsTxCommit(kw: string) {
    kw == "COMMIT" || kw == "END"
  }

  predicate IsTxRollback(kw: string) {
    kw == "ROLLBACK" || kw == "ABORT"
  }

  /** fmt's %d. */
  function Decimal(n: int): string
    decreases n < 0, if n < 0 then -n else n
  {
    if n < 0 then "-" + Decimal(-n)
    else if n < 10 then [(n + 48) as char]
    else Decimal(n / 10) + [(n % 10 + 48) as char]
  }

  function ObjectTag(query: string, kw: string): string {
    var fields := Fields(query);
    if |fields| >= 2 &&
       ToUpper(fields[1]) in {"TABLE", "INDEX", "VIEW", "TRIGGER", "DATABASE", "SCHEMA", "SEQUENCE"}
    then kw + " " + ToUpper(fields[1])
    else kw
  }

  function CommandTag(query: string, affected: int, returned: int): string {
    var kw := LeadingKeyword(query);
    var writeCount := if IsRowReturning(query) then returned else affected;
    if kw == "INSERT" then "INSERT 0 " + Decimal(writeCount)
    else if kw in {"UPDATE", "DELETE"} then kw + " " + Decimal(writeCount)
    else if kw in {"SELECT", "VALUES", "WITH", "SHOW", "TABLE"} then "SELECT " + Decimal(returned)
    else if kw in {"CREATE", "DROP", "ALTER", "TRUNCATE", "GRANT", "REVOKE", "COMMENT", "REINDEX"} then
      ObjectTag(query, kw)
    else if kw in {"BEGIN", "START"} then "BEGIN"
    else if kw in {"COMMIT", "END"} then "COMMIT"
    else kw
  }

  // --------------------------------------------------------------- placeholders

  function DigitLen(s: string): (n: nat)
    ensures n <= |s| && forall i :: 0 <= i < n ==> IsDigit(s[i])
  {
    if s == [] || !IsDigit(s[0]) then 0 else 1 + DigitLen(s[1..])
  }

  /** The digits of every match of \$(\d+), left to right. */
  function Placeholders(s: string): seq<string>
    decreases |s|
  {
    if s == [] then []
    else
      var n := DigitLen(s[1..]);
      if s[0] == '$' && n > 0 then [s[1..n + 1]] + Placeholders(s[n + 1..])
      else Placeholders(s[1..])
  }

  function DigitsValue(digits: string): nat
    requires forall i :: 0 <= i < |digits| ==> IsDigit(digits[i])
  {
    if digits == [] then 0
    else
      var last := digits[|digits| - 1];
      assert IsDigit(last);
      DigitsValue(digits[..|digits| - 1]) * 10 + (last as int - 48)
  }

  const MAX_INT64 := 0x7FFF_FFFF_FFFF_FFFF

  /** strconv.Atoi on digits: out of range is an error. */
  function Atoi(digits: string): Option<nat> {
    if digits != [] && (forall i :: 0 <= i < |digits| ==> IsDigit(digits[i])) && DigitsValue(digits) <= MAX_INT64
    then Some(DigitsValue(digits)) else None
  }

  /** The highest placeholder index, 0 when no placeholder has one. */
  predicate HighestIndex(ps: seq<string>, max: nat) {
    (forall i :: 0 <= i < |ps| && Atoi(ps[i]).Some? ==> Atoi(ps[i]).value <= max) &&
    (max == 0 || exists i :: 0 <= i < |ps| && Atoi(ps[i]) == Some(max))
  }

  function Highest(ps: seq<string>): (max: nat)
    ensures HighestIndex(ps, max)
  {
    if ps == [] then 0
    else
      var last, m := ps[|ps| - 1], Highest(ps[..|ps| - 1]);
      if Atoi(last).Some? && Atoi(last).value > m then Atoi(last).value else m
  }

  /** The number of parameters a client has to bind. */
  function CountParams(query: string): nat {
    Highest(Placeholders(query))
  }

  method CountParameters(query: string) returns (max: nat)
    ensures max == CountParams(query)
  {
    hide Placeholders, DigitsValue;
    max := 0;
    var matches := Placeholders(query);
    for i := 0 to |matches|
      invariant max == Highest(matches[..i])
    {
      assert matches[..i + 1][..i] == matches[..i];
      match Atoi(matches[i]) {
        case Some(n) =>
          if n > max {
            max := n;
          }
        case None =>
      }
    }
    assert matches[..|matches|] == matches;
  }

  /** A count written into a command tag reads back as the count. */
  lemma {:induction false} DecimalReadsBack(n: nat)
    ensures Decimal(n) != "" && (forall i :: 0 <= i < |Decimal(n)| ==> IsDigit(Decimal(n)[i]))
    ensures DigitsValue(Decimal(n)) == n
  {
    var d := Decimal(n);
    if n >= 10 {
      DecimalReadsBack(n / 10);
      assert d[..|d| - 1] == Decimal(n / 10);
    } else {
      assert d[..0] == "";
    }
  }

  /** The tag of a write ends in the number of rows it sent when it returns rows, and in the
      number of rows it affected when it does not. */
  lemma WriteTagCounts(query: string, affected: nat, returned: nat) returns (head: string, digits: string)
    requires LeadingKeyword(query) in {"INSERT", "UPDATE", "DELETE"}
    ensures CommandTag(query, affected, returned) == head + digits
    ensures head == if LeadingKeyword(query) == "INSERT" then "INSERT 0 " else LeadingKeyword(query) + " "
    ensures digits != "" && forall i :: 0 <= i < |digits| ==> IsDigit(digits[i])
    ensures DigitsValue(digits) == if IsRowReturning(query) then returned else affected
  {
    hide LeadingKeyword, HasWord, IsRowReturning, DigitsValue, Decimal;
    var kw := LeadingKeyword(query);
    var n := if IsRowReturning(query) then returned else affected;
    DecimalReadsBack(n);
    digits := Decimal(n);
    head := if kw == "INSERT" then "INSERT 0 " else kw + " ";
  }

  lemma {:induction false} DigitLenAppend(a: string, b: string)
    requires b == [] || !IsDigit(b[0])
    ensures DigitLen(a + b) == DigitLen(a)
  {
    if a == [] {
      assert a + b == b;
    } else {
      assert (a + b)[1..] == a[1..] + b;
      DigitLenAppend(a[1..], b);
    }
  }

  /** No placeholder can begin in a and end in b. */
  predicate Apart(a: string, b: string) {
    a == [] || b == [] || !IsDigit(b[0]) || (!IsDigit(a[|a| - 1]) && a[|a| - 1] != '$')
  }

  lemma {:induction false} DigitLenApart(a: string, b: string)
    requires a != [] ==> !IsDigit(a[|a| - 1])
    requires a != []
    ensures DigitLen(a + b) == DigitLen(a)
  {
    assert (a + b)[1..] == a[1..] + b;
    if |a| > 1 {
      DigitLenApart(a[1..], b);
    }
  }

  lemma {:induction false} PlaceholdersAppend(a: string, b: string)
    requires Apart(a, b)
    ensures Placeholders(a + b) == Placeholders(a) + Placeholders(b)
    decreases |a|
  {
    hide Placeholders, DigitLen, IsDigit;
    if a == [] {
      NoneInEmpty();
      assert a + b == b;
    } else {
      var n := DigitLen(a[1..]);
      PlaceholdersStep(a);
      PlaceholdersStep(a + b);
      assert (a + b)[1..] == a[1..] + b && (a + b)[0] == a[0];
      DigitLenSame(a, b);
      if a[0] == '$' && n > 0 {
        var rest := a[n + 1..];
        assert rest != [] ==> rest[|rest| - 1] == a[|a| - 1];
        PlaceholdersAppend(rest, b);
        assert (a + b)[n + 1..] == rest + b;
        assert (a + b)[1..n + 1] == a[1..n + 1];
        Assoc([a[1..n + 1]], Placeholders(rest), Placeholders(b));
      } else {
        PlaceholdersAppend(a[1..], b);
      }
    }
  }

  lemma NoneInEmpty()
    ensures Placeholders([]) == []
  {
  }

  lemma PlaceholdersStep(s: string)
    requires s != []
    ensures var n := DigitLen(s[1..]);
            Placeholders(s) == if s[0] == '$' && n > 0 then [s[1..n + 1]] + Placeholders(s[n + 1..])
                               else Placeholders(s[1..])
  {
  }

  lemma DigitLenSame(a: string, b: string)
    requires a != [] && Apart(a, b)
    ensures a[0] == '$' ==> DigitLen(a[1..]) == DigitLen(a[1..] + b)
  {
    if b == [] || !IsDigit(b[0]) {
      DigitLenAppend(a[1..], b);
    } else if |a| > 1 {
      DigitLenApart(a[1..], b);
    }
  }

  lemma {:induction false} NoPlaceholders(s: string)
    requires '$' !in s
    ensures Placeholders(s) == []
    decreases |s|
  {
    if s != [] {
      NoPlaceholders(s[1..]);
    }
  }

  // ------------------------------------------------------- printed placeholders

  /** A run of digits is taken whole. */
  lemma {:induction false} DigitLenIsMaximal(s: string)
    ensures DigitLen(s) == |s| || !IsDigit(s[DigitLen(s)])
  {
    if s != [] && IsDigit(s[0]) {
      DigitLenIsMaximal(s[1..]);
    }
  }

  lemma DigitLenOfRun(d: string, b: string)
    requires (forall i :: 0 <= i < |d| ==> IsDigit(d[i])) && (b == [] || !IsDigit(b[0]))
    ensures DigitLen(d + b) == |d|
  {
    var n := DigitLen(d + b);
    DigitLenIsMaximal(d + b);
    assert forall i :: 0 <= i < |d| ==> (d + b)[i] == d[i];
    assert b != [] ==> (d + b)[|d|] == b[0];
  }

  /** A placeholder in a text, wherever it stands, is read with its whole number. */
  lemma PlaceholderInText(a: string, n: nat, b: string)
    requires b == [] || !IsDigit(b[0])
    ensures Placeholders(a + ("$" + (Decimal(n) + b))) == Placeholders(a) + ([Decimal(n)] + Placeholders(b))
  {
    hide Placeholders, Decimal, DigitLen;
    var d := Decimal(n);
    var s := "$" + (d + b);
    DecimalReadsBack(n);
    DigitLenOfRun(d, b);
    assert s[1..] == d + b && s[0] == '$';
    PlaceholdersStep(s);
    assert s[1..|d| + 1] == d && s[|d| + 1..] == b;
    PlaceholdersAppend(a, s);
  }

  /** Text around numbered placeholders: what comes first, and each number with the text after it. */
  function PrintPlaceholders(first: string, rest: seq<(nat, string)>): string
    decreases |rest|
  {
    if rest == [] then first
    else first + ("$" + (Decimal(rest[0].0) + PrintPlaceholders(rest[0].1, rest[1..])))
  }

  /** The texts hold no placeholder of their own and do not continue a number. */
  predicate PlainBetween(rest: seq<(nat, string)>) {
    forall i :: 0 <= i < |rest| ==> Placeholders(rest[i].1) == [] && (rest[i].1 == "" || !IsDigit(rest[i].1[0]))
  }

  function Numbers(rest: seq<(nat, string)>): seq<string> {
    seq(|rest|, i requires 0 <= i < |rest| => Decimal(rest[i].0))
  }

  lemma NextIsNoDigit(first: string, rest: seq<(nat, string)>)
    requires first == "" || !IsDigit(first[0])
    ensures var s := PrintPlaceholders(first, rest); s == "" || !IsDigit(s[0])
  {
  }

  lemma {:induction false} PrintedPlaceholders(first: string, rest: seq<(nat, string)>)
    requires Placeholders(first) == [] && PlainBetween(rest)
    ensures Placeholders(PrintPlaceholders(first, rest)) == Numbers(rest)
    decreases |rest|
  {
    hide Placeholders, Decimal;
    if rest != [] {
      var text := PrintPlaceholders(rest[0].1, rest[1..]);
      assert forall i :: 0 <= i < |rest| - 1 ==> rest[1..][i] == rest[i + 1];
      PrintedPlaceholders(rest[0].1, rest[1..]);
      NextIsNoDigit(rest[0].1, rest[1..]);
      PlaceholderInText(first, rest[0].0, text);
      assert Numbers(rest) == [] + ([Decimal(rest[0].0)] + Numbers(rest[1..]));
    }
  }

  /** The number of parameters is the greatest number of a placeholder that fits an int64, 0 without one. */
  lemma CountOfPrinted(first: string, rest: seq<(nat, string)>)
    requires Placeholders(first) == [] && PlainBetween(rest)
    ensures var n := CountParams(PrintPlaceholders(first, rest));
            && (forall i :: 0 <= i < |rest| && rest[i].0 <= 9223372036854775807 ==> rest[i].0 <= n)
            && (n == 0 || exists i :: 0 <= i < |rest| && rest[i].0 == n)
  {
    hide Placeholders, Decimal, Highest, DigitsValue, PrintPlaceholders;
    PrintedPlaceholders(first, rest);
    var ps := Numbers(rest);
    var n := Highest(ps);
    assert HighestIndex(ps, n);
    forall i | 0 <= i < |rest|
      ensures Atoi(ps[i]) == if rest[i].0 <= MAX_INT64 then Some(rest[i].0) else None
    {
      DecimalReadsBack(rest[i].0);
    }
    if n > 0 {
      var i :| 0 <= i < |ps| && Atoi(ps[i]) == Some(n);
      assert rest[i].0 == n;
    }
  }
}

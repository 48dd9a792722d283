/** Statements whose later enums parseEnums loses: its parenthesis matcher knows string literals but
    not quoted names, and its search knows neither. */
module EnumsLost {
  import opened Text
  import opened Scanner
  import opened CallPattern
  import opened Literal
  import opened EnumLabels
  import opened EnumTables
  import opened EnumCatalogs

  // ------------------------------------------------- a default that opens a call

  const DEFAULTED := "CREATE TABLE t (x TEXT DEFAULT '"

  const AFTER_DEFAULT := SqlStringLiteral(", b TEXT CHECK (b IN (") + ("y" + ("'" + ")))"))

  // CREATE TABLE t (x TEXT DEFAULT 'check (', b TEXT CHECK (b IN ('y')))
  const WITH_DEFAULT := DEFAULTED + ("check " + ("(" + AFTER_DEFAULT))

  lemma DefaultedHasNoCheck()
    ensures NoCall(DEFAULTED, CHECK)
  {
    hide Find, Spells;
    assert CHECK[1] == 'h' && ['C'] + DEFAULTED[1..] == DEFAULTED;
    NoCallAfterLetter('C', DEFAULTED[1..], CHECK);
  }

  lemma SpelledLower()
    ensures CallHead("check ", CHECK)
  {
  }

  /** A default that holds CHECK ( : the clause of b is not found. */
  lemma LostAfterDefault()
    ensures Enums("t", WITH_DEFAULT) == []
  {
    hide Find, Head, Match, Reach, CallHead, NoCall, FirstCall, DoubleQuotes;
    CheckIsKeyword();
    DefaultedHasNoCheck();
    SpelledLower();
    LiteralRunsOn(", b TEXT CHECK (b IN (", "y", ")))");
    UnclosedCall(DEFAULTED, "check ", AFTER_DEFAULT, CHECK);
    NoEnums("t", WITH_DEFAULT, {});
  }

  // ------------------------------------------ a quoted name that holds a parenthesis

  /** A list followed by more than white space is no membership test. */
  lemma TestGoesOn(c: Column, list: string, tail: string)
    requires SoundColumn(c) && Balanced(list) && TrimSpace(tail) != ""
    ensures InList(PrintColumn(c) + (" " + ("IN " + ("(" + (list + (")" + tail)))))) == None
  {
    hide *;
    var rest := list + (")" + tail);
    var col := PrintColumn(c);
    var body := col + (" " + ("IN " + ("(" + rest)));
    InWord();
    OneBlank();
    ReadsParts("", c, " ", "IN ", rest);
    InHeadParts("", col, " ", "IN " + ("(" + rest), c.name, 3);
    assert "" + body == body;
    Assoc(" ", "IN ", "(" + rest);
    Assoc(col, " " + "IN ", "(" + rest);
    ListGoesOn(col + (" " + "IN "), list, tail);
    assert |col + (" " + "IN ")| == |col| + 4 && |" "| == 1;
    NoListNoTest(body, c.name, |col| + 4);
  }

  lemma NoListNoTest(body: string, name: string, open: nat)
    requires InHead(body) == Some((name, open)) && open < |body| && body[open] == '(' && ListAt(body, open) == None
    ensures InList(body) == None
  {
    hide InHead, ListAt;
  }

  lemma ListGoesOn(front: string, list: string, tail: string)
    requires Balanced(list) && TrimSpace(tail) != ""
    ensures var body := front + ("(" + (list + (")" + tail))); body[|front|] == '(' && ListAt(body, |front|) == None
  {
    hide Reach, TrimSpace, Labels, Split, Balanced;
    var body := front + ("(" + (list + (")" + tail)));
    MatchesBody(list, tail);
    MatchSkips(front, "(" + (list + (")" + tail)));
    var close := |front| + 1 + |list|;
    assert body[close + 1..] == tail;
  }

  lemma OneBlank()
    ensures AllBlank(" ") && AllBlank("")
  {
  }

  const SECOND := "," + (" b TEXT CHECK " + ("(" + ("b IN " + ("(" + ("'y'" + ")"))) + ")"))

  const NAMED := Quoted("a(")

  const NAMED_BODY := PrintColumn(NAMED) + (" " + ("IN " + ("(" + ("'x'" + (")" + (")" + SECOND))))))

  const NAMED_TEXT := "CREATE TABLE t (\"a(\" TEXT "

  // CREATE TABLE t ("a(" TEXT CHECK ("a(" IN ('x')), b TEXT CHECK (b IN ('y')))
  const WITH_NAME := Call(NAMED_TEXT, "CHECK ", NAMED_BODY, "").Text()

  lemma NamedHasNoCheck()
    ensures NoCall(NAMED_TEXT, CHECK)
  {
    hide Find, Spells;
    assert CHECK[1] == 'h' && ['C'] + NAMED_TEXT[1..] == NAMED_TEXT;
    NoCallAfterLetter('C', NAMED_TEXT[1..], CHECK);
  }

  lemma LiteralX(s: string)
    requires '\'' !in s
    ensures Balanced("'" + (s + "'"))
  {
    hide Scan, Stays, Cut, DoubleQuotes;
    NothingToDouble(s);
    LiteralIsArgument(s);
  }

  lemma PlainIsBalanced(s: string)
    requires Plain(s)
    ensures Balanced(s)
  {
    PlainIsArgument(s);
  }

  /** "a followed by a parenthesized text, more text, and another. */
  lemma NamedBodyBalanced()
    ensures Balanced(NAMED_BODY) && Balanced("'x'")
  {
    hide Scan, Stays, Cut, Reach, Balanced, DoubleQuotes, Plain;
    LiteralX("x");
    LiteralX("y");
    assert "'" + ("x" + "'") == "'x'" && "'" + ("y" + "'") == "'y'";
    PlainPieces();
    InParens("\" IN ", "'x'");
    InParens("b IN ", "'y'");
    CommaBalanced();
    var first := "(" + ("\" IN " + ("(" + ("'x'" + ")"))) + ")";
    var second := "(" + ("b IN " + ("(" + ("'y'" + ")"))) + ")";
    BalancedPair(" b TEXT CHECK ", second);
    BalancedPair(",", " b TEXT CHECK " + second);
    BalancedPair("\"a", first);
    BalancedPair("\"a" + first, SECOND);
    NamedBodyText(SECOND);
  }

  lemma InParens(plain: string, inner: string)
    requires Balanced(plain) && Balanced(inner)
    ensures Balanced("(" + (plain + ("(" + (inner + ")"))) + ")")
  {
    hide Scan, Stays, Cut, Reach, Balanced;
    Parens(inner);
    Assoc("(", inner, ")");
    BalancedPair(plain, "(" + (inner + ")"));
    Parens(plain + ("(" + (inner + ")")));
  }

  lemma Parens(s: string)
    requires Balanced(s)
    ensures Balanced("(" + s + ")")
  {
    Parenthesized(s);
  }

  lemma CommaBalanced()
    ensures Balanced(",")
  {
  }

  lemma PlainPieces()
    ensures Balanced("\" IN ") && Balanced("b IN ") && Balanced(" b TEXT CHECK ") && Balanced("\"a")
  {
    hide Scan, Stays, Cut, Balanced;
    PlainIsBalanced("\" IN ");
    PlainIsBalanced("b IN ");
    PlainIsBalanced(" b TEXT CHECK ");
    PlainIsBalanced("\"a");
  }

  lemma NamedBodyText(second: string)
    ensures PrintColumn(NAMED) + (" " + ("IN " + ("(" + ("'x'" + (")" + (")" + second)))))) ==
            ("\"a" + ("(" + ("\" IN " + ("(" + ("'x'" + ")"))) + ")")) + second
  {
  }

  lemma AfterListIsText()
    ensures TrimSpace(")" + SECOND) != "" && SoundColumn(NAMED)
  {
    var t := ")" + SECOND;
    assert t[0] == ')' && t[|t| - 1] == SECOND[|SECOND| - 1] == ')';
    TrimTight(t);
  }

  /** A column named a( in double quotes: its parenthesis is counted, so that the body of its clause runs
      to the end of the statement, is no membership test, and takes the clause of b with it. */
  lemma LostInQuotedName()
    ensures Enums("t", WITH_NAME) == []
  {
    hide Find, CallHead, NoCall, FirstCall, Balanced, InList, Leads, SoundColumn, TrimSpace, PrintColumn, EnumsAfter;
    CheckIsKeyword();
    NamedHasNoCheck();
    SpelledCheck();
    PlainLeads(NAMED_TEXT, "CHECK ", CHECK);
    NamedBodyBalanced();
    AfterListIsText();
    TestGoesOn(NAMED, "'x'", ")" + SECOND);
    OneOther("t", NAMED_TEXT, "CHECK ", NAMED_BODY);
  }

  lemma OneOther(table: string, text: string, head: string, body: string)
    requires Leads(text, head, CHECK) && Balanced(body) && InList(body) == None
    ensures Enums(table, Call(text, head, body, "").Text()) == []
  {
    hide FirstCall, Balanced, InList, Leads, EnumsAfter;
    var d := Check(text, head, Other(body), End(""));
    EmptyEnds();
    assert Sound(End("")) && Sound(d);
    EnumsRoundTrip(table, d, {});
    assert Clauses(End("")) == [] && Clauses(d) == [] + [];
    assert Firsts(table, [], {}) == [];
  }

  lemma EmptyEnds()
    ensures FirstCall("", CHECK) == None
  {
  }
}

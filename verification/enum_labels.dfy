/** parseInList: a CHECK body of the form col IN ('a', 'b', ...) and its printer. */
module EnumLabels {
  import opened Text
  import opened Scanner
  import opened CallPattern
  import opened Literal

  // -------------------------------------------------------- the head of the test

  /** The length of the longest run without the character. */
  function RunUntil(s: string, stop: char): (n: nat)
    ensures n <= |s|
  {
    if s == "" || s[0] == stop then 0 else 1 + RunUntil(s[1..], stop)
  }

  function WordRun(s: string): (n: nat)
    ensures n <= |s|
  {
    if s == "" || !IsFoldedWord(s[0]) then 0 else 1 + WordRun(s[1..])
  }

  /** The part of an identifier between delimiters, with its length in the text. */
  function Delimited(s: string, close: char): Option<(string, nat)>
    requires s != ""
  {
    var n := RunUntil(s[1..], close);
    if n > 0 && n + 1 < |s| then Some((s[1..n + 1], n + 2)) else None
  }

  /** An identifier at the start of s: its name and how much of s it takes. */
  function Identifier(s: string): (r: Option<(string, nat)>)
    ensures r.Some? ==> r.value.1 <= |s|
  {
    if s == "" then None
    else if s[0] == '"' then Delimited(s, '"')
    else if s[0] == '[' then Delimited(s, ']')
    else if s[0] == '`' then Delimited(s, '`')
    else if IsFoldedWord(s[0]) && !IsDigit(s[0]) then Some((s[..WordRun(s)], WordRun(s)))
    else None
  }

  const IN := "in"

  /** inHeadRegex: the column name and the position of the parenthesis of the list. */
  function InHead(body: string): (r: Option<(string, nat)>)
    ensures r.Some? ==> r.value.1 < |body| && body[r.value.1] == '('
  {
    var start := Blanks(body);
    var fromName := body[start..];
    match Identifier(fromName)
    case None => None
    case Some(id) =>
      var fromGap := fromName[id.1..];
      var gap := Blanks(fromGap);
      var fromWord := fromGap[gap..];
      var word := Head(fromWord, IN);
      if gap == 0 || word < 0 then None else Some((id.0, start + id.1 + gap + word))
  }

  // ---------------------------------------------------------------- parseInList

  /** The labels of a list, None as soon as an element does not begin and end in a quote. */
  function Labels(args: seq<string>): (r: Option<seq<string>>)
    ensures r.Some? ==> |r.value| == |args|
  {
    if args == [] then Some([])
    else
      var a := TrimSpace(args[|args| - 1]);
      match Labels(args[..|args| - 1])
      case None => None
      case Some(front) =>
        if IsQuoted(a) then Some(front + [HalveQuotes(a[1..|a| - 1])]) else None
  }

  function ListAt(body: string, open: nat): Option<seq<string>>
    requires open < |body| && body[open] == '('
  {
    var close := Match(body, open);
    if close < 0 || TrimSpace(body[close + 1..]) != "" then None
    else
      ClosesAtMatch(body, open);
      Labels(Split(body[open + 1..close]))
  }

  function InList(body: string): Option<(string, seq<string>)> {
    match InHead(body)
    case None => None
    case Some(head) =>
      match ListAt(body, head.1)
      case None => None
      case Some(labels) => Some((head.0, labels))
  }

  method ParseInList(body: string) returns (col: string, labels: seq<string>, ok: bool)
    ensures ok == InList(body).Some?
    ensures ok ==> InList(body) == Some((col, labels)) && labels != []
  {
    hide InHead, Match, Split, HalveQuotes, TrimSpace;
    var head := InHead(body);
    if head == None {
      return "", [], false;
    }
    col := head.value.0;
    var open := head.value.1;
    var close := MatchParen(body, open);
    if close < 0 {
      return "", [], false;
    }
    if TrimSpace(body[close + 1..]) != "" {
      return "", [], false;
    }
    ClosesAtMatch(body, open);
    var args := SplitArgs(body[open + 1..close]);
    JoinSplit(body[open + 1..close]);
    labels := [];
    for i := 0 to |args|
      invariant Labels(args[..i]) == Some(labels)
    {
      var a := TrimSpace(args[i]);
      assert args[..i + 1][..i] == args[..i];
      if |a| < 2 || a[0] != '\'' || a[|a| - 1] != '\'' {
        BadElement(args, i);
        return "", [], false;
      }
      labels := labels + [HalveQuotes(a[1..|a| - 1])];
    }
    assert args[..|args|] == args;
    if |labels| == 0 {
      return "", [], false;
    }
    return col, labels, true;
  }

  /** The test on elements, exactly: first and last character of each are quotes. */
  lemma {:induction false} LabelsIff(args: seq<string>)
    ensures Labels(args).Some? <==> forall i :: 0 <= i < |args| ==> IsQuoted(TrimSpace(args[i]))
  {
    if args != [] {
      LabelsIff(args[..|args| - 1]);
      assert forall i :: 0 <= i < |args| - 1 ==> args[..|args| - 1][i] == args[i];
    }
  }

  lemma {:induction false} LabelAt(args: seq<string>, i: nat)
    requires Labels(args).Some? && i < |args|
    ensures var a := TrimSpace(args[i]); IsQuoted(a) && Labels(args).value[i] == HalveQuotes(a[1..|a| - 1])
  {
    hide TrimSpace, HalveQuotes;
    if i < |args| - 1 {
      LabelAt(args[..|args| - 1], i);
    }
  }

  /** An accepted element is read right, so that its label printed as a literal is the element again,
      exactly when every quote between its first and last is doubled: when it is a single literal. */
  lemma LabelIsRightIff(args: seq<string>, i: nat)
    requires Labels(args).Some? && i < |args|
    ensures var a := TrimSpace(args[i]);
            |a| >= 2 && (SqlStringLiteral(Labels(args).value[i]) == a <==> Paired(a[1..|a| - 1]))
  {
    hide TrimSpace, HalveQuotes, DoubleQuotes, Labels, Paired;
    LabelAt(args, i);
    var a := TrimSpace(args[i]);
    var t := a[1..|a| - 1];
    DoubledHalved(t);
    var d := DoubleQuotes(HalveQuotes(t));
    assert a == ['\''] + (t + ['\'']);
    assert (d + ['\''])[..|d|] == d && (t + ['\''])[..|t|] == t;
    assert SqlStringLiteral(Labels(args).value[i])[1..] == d + ['\''] && a[1..] == t + ['\''];
  }

  /** The list of the one element 'a' || 'b', which is no literal, is accepted with the label
      a' || 'b. */
  lemma ExpressionTakenForLabel()
    ensures Labels(["'a' || 'b'"]) == Some(["a' || 'b"]) && !Paired("a' || 'b")
  {
    hide *;
    var t, rest := "a' || 'b", " || 'b";
    assert "'a' || 'b'" == ['\''] + (t + ['\'']);
    ReadsAsItIs("'a' || 'b'", t);
    assert t == "a" + (['\''] + rest) && rest == " || " + (['\''] + "b");
    LoneQuote("a", rest);
    LoneQuote(" || ", "b");
    NothingToHalve("b");
    LoneIsUnpaired("a", rest);
  }

  lemma ReadsAsItIs(a: string, t: string)
    requires a == ['\''] + (t + ['\''])
    ensures Labels([a]) == Some([HalveQuotes(t)])
  {
    hide HalveQuotes;
    assert TrimLeft(a) == a && TrimSpace(a) == a && IsQuoted(a);
    assert a[1..|a| - 1] == t;
    assert [a][..0] == [] && Labels([]) == Some([]);
    assert [] + [HalveQuotes(t)] == [HalveQuotes(t)];
  }

  lemma {:induction false} BadElement(args: seq<string>, i: nat)
    requires i < |args| && !IsQuoted(TrimSpace(args[i]))
    ensures Labels(args) == None
  {
    if i < |args| - 1 {
      BadElement(args[..|args| - 1], i);
    }
  }

  // -------------------------------------------------------------------- printing

  datatype Column = Bare(name: string) | Quoted(name: string) | Bracketed(name: string) | Backticked(name: string)

  function PrintColumn(c: Column): string {
    match c
    case Bare(name) => name
    case Quoted(name) => ['"'] + (name + ['"'])
    case Bracketed(name) => ['['] + (name + [']'])
    case Backticked(name) => ['`'] + (name + ['`'])
  }

  predicate SoundColumn(c: Column) {
    c.name != "" &&
    match c
    case Bare(name) => IsFoldedWord(name[0]) && !IsDigit(name[0]) && forall i :: 0 <= i < |name| ==> IsFoldedWord(name[i])
    case Quoted(name) => '"' !in name
    case Bracketed(name) => ']' !in name
    case Backticked(name) => '`' !in name
  }

  /** A label with the white space around its literal. */
  datatype Label = Label(lead: string, text: string, trail: string)

  predicate SoundLabels(labels: seq<Label>) {
    forall i :: 0 <= i < |labels| ==> AllSpace(labels[i].lead) && AllSpace(labels[i].trail)
  }

  function PrintLabel(l: Label): string {
    l.lead + SqlStringLiteral(l.text) + l.trail
  }

  function PrintLabels(labels: seq<Label>): seq<string> {
    seq(|labels|, i requires 0 <= i < |labels| => PrintLabel(labels[i]))
  }

  function Texts(labels: seq<Label>): seq<string> {
    seq(|labels|, i requires 0 <= i < |labels| => labels[i].text)
  }

  /** col IN (labels) in any case and layout; word holds IN and the blanks after it. */
  datatype Test = Test(lead: string, col: Column, gap: string, word: string, labels: seq<Label>, trail: string)

  predicate SoundTest(t: Test) {
    AllBlank(t.lead) && SoundColumn(t.col) && AllBlank(t.gap) && t.gap != "" && CallHead(t.word, IN) &&
    t.labels != [] && SoundLabels(t.labels) && AllSpace(t.trail)
  }

  function PrintTest(t: Test): string {
    t.lead + (PrintColumn(t.col) + (t.gap + (t.word + ("(" + (Join(PrintLabels(t.labels), ",") + (")" + t.trail))))))
  }

  // ------------------------------------------------------------------ round trip

  lemma InIsKeyword()
    ensures Keyword(IN)
  {
  }

  lemma {:induction false} RunOfName(name: string, stop: char, rest: string)
    requires stop !in name
    ensures RunUntil(name + ([stop] + rest), stop) == |name|
  {
    if name == "" {
      assert name + ([stop] + rest) == [stop] + rest;
    } else {
      assert (name + ([stop] + rest))[1..] == name[1..] + ([stop] + rest);
      RunOfName(name[1..], stop, rest);
    }
  }

  lemma {:induction false} WordRunOfName(name: string, rest: string)
    requires forall i :: 0 <= i < |name| ==> IsFoldedWord(name[i])
    requires rest == "" || !IsFoldedWord(rest[0])
    ensures WordRun(name + rest) == |name|
  {
    if name == "" {
      assert name + rest == rest;
    } else {
      assert (name + rest)[1..] == name[1..] + rest;
      WordRunOfName(name[1..], rest);
    }
  }

  lemma DelimitedName(open: char, name: string, close: char, rest: string)
    requires name != "" && close !in name
    ensures Delimited([open] + (name + ([close] + rest)), close) == Some((name, |name| + 2))
  {
    var s := [open] + (name + ([close] + rest));
    assert s[1..] == name + ([close] + rest);
    RunOfName(name, close, rest);
    assert s[1..|name| + 1] == name;
  }

  lemma IdentifierOfColumn(c: Column, rest: string)
    requires SoundColumn(c) && rest != "" && IsBlank(rest[0])
    ensures Identifier(PrintColumn(c) + rest) == Some((c.name, |PrintColumn(c)|))
  {
    var s := PrintColumn(c) + rest;
    match c
    case Bare(name) =>
      WordRunOfName(name, rest);
      assert s[0] == name[0] && s[..|name|] == name;
    case Quoted(name) => ColumnText(c, '"', '"', rest); DelimitedName('"', name, '"', rest);
    case Bracketed(name) => ColumnText(c, '[', ']', rest); DelimitedName('[', name, ']', rest);
    case Backticked(name) => ColumnText(c, '`', '`', rest); DelimitedName('`', name, '`', rest);
  }

  lemma ColumnText(c: Column, open: char, close: char, rest: string)
    requires PrintColumn(c) == [open] + (c.name + [close])
    ensures PrintColumn(c) + rest == [open] + (c.name + ([close] + rest))
  {
  }

  /** The head regex finds the column and the parenthesis of any printed test. */
  lemma HeadOfTest(t: Test)
    requires SoundTest(t)
    ensures InHead(PrintTest(t)) == Some((t.col.name, |t.lead| + |PrintColumn(t.col)| + |t.gap| + |t.word|))
  {
    hide *;
    var rest := Join(PrintLabels(t.labels), ",") + (")" + t.trail);
    SoundTestParts(t);
    ReadsParts(t.lead, t.col, t.gap, t.word, rest);
    InHeadParts(t.lead, PrintColumn(t.col), t.gap, t.word + ("(" + rest), t.col.name, |t.word|);
    PrintTestParts(t, rest);
  }

  lemma SoundTestParts(t: Test)
    requires SoundTest(t)
    ensures AllBlank(t.lead) && SoundColumn(t.col) && AllBlank(t.gap) && t.gap != "" && CallHead(t.word, IN)
  {
  }

  lemma PrintTestParts(t: Test, rest: string)
    requires rest == Join(PrintLabels(t.labels), ",") + (")" + t.trail)
    ensures PrintTest(t) == t.lead + (PrintColumn(t.col) + (t.gap + (t.word + ("(" + rest))))
  {
  }

  lemma ReadsParts(lead: string, c: Column, gap: string, word: string, rest: string)
    requires AllBlank(lead) && SoundColumn(c) && AllBlank(gap) && gap != "" && CallHead(word, IN)
    ensures var fromWord := word + ("(" + rest);
            && Blanks(lead + (PrintColumn(c) + (gap + fromWord))) == |lead|
            && Identifier(PrintColumn(c) + (gap + fromWord)) == Some((c.name, |PrintColumn(c)|))
            && Blanks(gap + fromWord) == |gap| > 0 && Head(fromWord, IN) == |word|
  {
    hide Identifier, Blanks, Head, CallHead, SoundColumn, PrintColumn;
    InIsKeyword();
    var col, fromWord := PrintColumn(c), word + ("(" + rest);
    ColumnStart(c);
    WordStart(word);
    BlanksOfPrinted(lead, col + (gap + fromWord));
    IdentifierOfColumn(c, gap + fromWord);
    BlanksOfPrinted(gap, fromWord);
    HeadOfPrinted(word, rest, IN);
  }

  lemma InHeadParts(lead: string, col: string, gap: string, fromWord: string, name: string, word: nat)
    requires Blanks(lead + (col + (gap + fromWord))) == |lead|
    requires Identifier(col + (gap + fromWord)) == Some((name, |col|))
    requires Blanks(gap + fromWord) == |gap| > 0 && Head(fromWord, IN) == word
    ensures InHead(lead + (col + (gap + fromWord))) == Some((name, |lead| + |col| + |gap| + word))
  {
    hide Identifier, Blanks, Head;
    Front(lead, col + (gap + fromWord));
    Front(col, gap + fromWord);
    Front(gap, fromWord);
  }

  lemma ColumnStart(c: Column)
    requires SoundColumn(c)
    ensures PrintColumn(c) != "" && !IsBlank(PrintColumn(c)[0])
  {
  }

  lemma WordStart(word: string)
    requires CallHead(word, IN)
    ensures word != "" && !IsBlank(word[0])
  {
  }

  lemma LabelIsArgument(l: Label)
    requires AllSpace(l.lead) && AllSpace(l.trail)
    ensures Argument(PrintLabel(l)) && TrimSpace(PrintLabel(l)) == SqlStringLiteral(l.text)
  {
    LiteralIsArgument(l.text);
    TrimPadded(l.lead, SqlStringLiteral(l.text), l.trail);
    assert Plain(l.lead) && Plain(l.trail);
    PlainIsArgument(l.lead);
    PlainIsArgument(l.trail);
    ArgumentPair(l.lead, SqlStringLiteral(l.text));
    ArgumentPair(l.lead + SqlStringLiteral(l.text), l.trail);
  }

  lemma {:induction false} LabelsOfPrinted(labels: seq<Label>)
    requires SoundLabels(labels)
    ensures Labels(PrintLabels(labels)) == Some(Texts(labels))
  {
    hide TrimSpace, HalveQuotes, DoubleQuotes;
    if labels != [] {
      var n := |labels| - 1;
      var l := labels[n];
      LabelsOfPrinted(labels[..n]);
      assert PrintLabels(labels)[..n] == PrintLabels(labels[..n]);
      assert Texts(labels) == Texts(labels[..n]) + [l.text];
      LabelIsArgument(l);
      LiteralInside(l.text);
      assert TrimSpace(PrintLabels(labels)[n]) == SqlStringLiteral(l.text);
    } else {
      assert PrintLabels(labels) == [] && Texts(labels) == [];
    }
  }

  lemma LiteralInside(text: string)
    ensures var lit := SqlStringLiteral(text); IsQuoted(lit) && HalveQuotes(lit[1..|lit| - 1]) == text
  {
    HalveDoubled(text);
    var lit := SqlStringLiteral(text);
    assert lit[1..|lit| - 1] == DoubleQuotes(text);
  }

  lemma ListIsBalanced(labels: seq<Label>)
    requires SoundLabels(labels) && labels != []
    ensures Balanced(Join(PrintLabels(labels), ","))
    ensures Split(Join(PrintLabels(labels), ",")) == PrintLabels(labels)
  {
    forall i | 0 <= i < |labels|
      ensures Argument(PrintLabels(labels)[i])
    {
      LabelIsArgument(labels[i]);
    }
    SplitJoin(PrintLabels(labels));
    JoinBalanced(PrintLabels(labels));
  }

  lemma {:induction false} TrimOfSpace(s: string)
    requires AllSpace(s)
    ensures TrimSpace(s) == ""
  {
    if s != "" {
      TrimOfSpace(s[1..]);
    }
  }

  /** The list after any text is read back, when only white space follows it. */
  lemma ListOfTest(front: string, labels: seq<Label>, trail: string)
    requires SoundLabels(labels) && labels != [] && AllSpace(trail)
    ensures var body := front + ("(" + (Join(PrintLabels(labels), ",") + (")" + trail)));
            body[|front|] == '(' && ListAt(body, |front|) == Some(Texts(labels))
  {
    hide Reach, Cut, Split, Labels, Balanced, PrintLabels, Texts, TrimSpace, Join;
    var list := Join(PrintLabels(labels), ",");
    var call := "(" + (list + (")" + trail));
    ListIsBalanced(labels);
    LabelsOfPrinted(labels);
    MatchesBody(list, trail);
    MatchSkips(front, call);
    TrimOfSpace(trail);
    var body := front + call;
    var close := |front| + 1 + |list|;
    assert body[|front| + 1..close] == list;
    assert body[close + 1..] == trail;
  }

  /** Parsing a printed membership test gives the column and the labels, exactly, for every
      column form, layout and non-empty list of labels over any characters. */
  lemma InListRoundTrip(t: Test)
    requires SoundTest(t)
    ensures InList(PrintTest(t)) == Some((t.col.name, Texts(t.labels)))
  {
    hide InHead, ListAt, PrintColumn, PrintLabels, Texts, Join, SoundColumn, CallHead;
    var front := t.lead + (PrintColumn(t.col) + (t.gap + t.word));
    var list := "(" + (Join(PrintLabels(t.labels), ",") + (")" + t.trail));
    HeadOfTest(t);
    ListOfTest(front, t.labels, t.trail);
    Assoc(t.lead, PrintColumn(t.col) + (t.gap + t.word), list);
    Assoc(PrintColumn(t.col), t.gap + t.word, list);
    Assoc(t.gap, t.word, list);
  }

  function Literals(labels: seq<string>): seq<string> {
    seq(|labels|, i requires 0 <= i < |labels| => SqlStringLiteral(labels[i]))
  }

  /** The same for a bare column and the literals of sqlStringLiteral joined by commas. */
  lemma PlainRoundTrip(name: string, labels: seq<string>)
    requires SoundColumn(Bare(name)) && labels != []
    ensures InList(name + (" IN (" + (Join(Literals(labels), ",") + ")"))) == Some((name, labels))
  {
    hide InList, SoundColumn, Join;
    var t := Test("", Bare(name), " ", "IN ", Unpadded(labels), "");
    InWord();
    UnpaddedLabels(labels);
    assert AllBlank("") && AllBlank(" ");
    InListRoundTrip(t);
    PlainText(name, Join(Literals(labels), ","));
  }

  function Unpadded(labels: seq<string>): seq<Label> {
    seq(|labels|, i requires 0 <= i < |labels| => Label("", labels[i], ""))
  }

  lemma UnpaddedLabels(labels: seq<string>)
    ensures SoundLabels(Unpadded(labels)) && Texts(Unpadded(labels)) == labels
    ensures PrintLabels(Unpadded(labels)) == Literals(labels)
  {
    var ls := Unpadded(labels);
    assert Texts(ls) == labels;
    forall i | 0 <= i < |labels|
      ensures PrintLabels(ls)[i] == Literals(labels)[i]
    {
      assert "" + SqlStringLiteral(labels[i]) + "" == SqlStringLiteral(labels[i]);
    }
  }

  lemma InWord()
    ensures CallHead("IN ", IN)
  {
  }

  lemma PlainText(name: string, list: string)
    ensures "" + (name + (" " + ("IN " + ("(" + (list + (")" + "")))))) == name + (" IN (" + (list + ")"))
  {
  }

  // --------------------------------------------------- nothing else is accepted

  lemma {:induction false} RunHasNone(s: string, stop: char)
    ensures stop !in s[..RunUntil(s, stop)] && (RunUntil(s, stop) < |s| ==> s[RunUntil(s, stop)] == stop)
  {
    if s != "" && s[0] != stop {
      RunHasNone(s[1..], stop);
      assert s[..RunUntil(s, stop)] == [s[0]] + s[1..][..RunUntil(s, stop) - 1];
    }
  }

  lemma {:induction false} WordRunIsWord(s: string)
    ensures forall i :: 0 <= i < WordRun(s) ==> IsFoldedWord(s[i])
  {
    if s != "" && IsFoldedWord(s[0]) {
      WordRunIsWord(s[1..]);
    }
  }

  lemma DelimitedMeans(s: string, close: char)
    requires s != "" && Delimited(s, close).Some?
    ensures var (name, k) := Delimited(s, close).value;
            name != "" && close !in name && k <= |s| && s[..k] == [s[0]] + (name + [close])
  {
    RunHasNone(s[1..], close);
    var n := RunUntil(s[1..], close);
    assert s[1..][..n] == s[1..n + 1] && s[1..][n] == s[n + 1];
  }

  /** Whatever is read as an identifier is one of the four column forms. */
  lemma IdentifierMeans(s: string) returns (c: Column)
    requires Identifier(s).Some?
    ensures SoundColumn(c) && c.name == Identifier(s).value.0 && s[..Identifier(s).value.1] == PrintColumn(c)
  {
    hide Delimited;
    var (name, k) := Identifier(s).value;
    if s[0] == '"' {
      DelimitedMeans(s, '"');
      c := Quoted(name);
    } else if s[0] == '[' {
      DelimitedMeans(s, ']');
      c := Bracketed(name);
    } else if s[0] == '`' {
      DelimitedMeans(s, '`');
      c := Backticked(name);
    } else {
      WordRunIsWord(s);
      c := Bare(name);
    }
  }

  /** What the head expression accepts is a column, blanks, and IN with a parenthesis. */
  lemma HeadMeans(body: string) returns (lead: string, c: Column, gap: string, word: string, rest: string)
    requires InHead(body).Some?
    ensures AllBlank(lead) && SoundColumn(c) && AllBlank(gap) && gap != "" && CallHead(word, IN)
    ensures c.name == InHead(body).value.0 && InHead(body).value.1 == |lead| + |PrintColumn(c)| + |gap| + |word|
    ensures rest == body[InHead(body).value.1..]
    ensures body == lead + (PrintColumn(c) + (gap + (word + rest)))
  {
    hide *;
    var start, idLen, gapLen, wordLen := InHeadRead(body);
    var x, col, y, z;
    lead, x := CutAt(body, start);
    col, y := CutAt(x, idLen);
    gap, z := CutAt(y, gapLen);
    word, rest := CutAt(z, wordLen);
    c := IdentifierMeans(x);
    BlanksFront(body);
    BlanksFront(y);
    HeadIsCallHead(z, IN);
    FourDrops(body, x, y, z, rest, start, idLen, gapLen, wordLen, InHead(body).value.1);
    assert PrintColumn(c) == col;
    Rejoined(body, lead, x, PrintColumn(c), y, gap, z, word, rest);
  }

  lemma CutAt(s: string, k: nat) returns (l: string, r: string)
    requires k <= |s|
    ensures l == s[..k] && r == s[k..] && s == l + r && |l| == k
  {
    l, r := s[..k], s[k..];
    Take(s, k);
  }

  lemma FourDrops(s: string, x: string, y: string, z: string, r: string, a: nat, b: nat, c: nat, d: nat, all: nat)
    requires a <= |s| && x == s[a..] && b <= |x| && y == x[b..] && c <= |y| && z == y[c..] && d <= |z| && r == z[d..]
    requires all == a + b + c + d
    ensures all <= |s| && r == s[all..]
  {
    Drop(s, a, b);
    Drop(s, a + b, c);
    Drop(s, a + b + c, d);
  }

  lemma Rejoined(body: string, lead: string, x: string, col: string, y: string, gap: string, z: string, word: string,
                 rest: string)
    requires body == lead + x && x == col + y && y == gap + z && z == word + rest
    ensures body == lead + (col + (gap + (word + rest)))
  {
  }

  /** The steps of the head expression. */
  lemma InHeadRead(body: string) returns (start: nat, idLen: nat, gapLen: nat, wordLen: nat)
    requires InHead(body).Some?
    ensures start == Blanks(body) <= |body|
    ensures var fromName := body[start..]; Identifier(fromName) == Some((InHead(body).value.0, idLen)) && idLen <= |fromName|
    ensures var fromGap := body[start..][idLen..]; gapLen == Blanks(fromGap) > 0 && gapLen <= |fromGap|
    ensures var fromWord := body[start..][idLen..][gapLen..]; wordLen == Head(fromWord, IN) < |fromWord|
    ensures InHead(body).value.1 == start + idLen + gapLen + wordLen
  {
    hide Identifier, Blanks, Head;
    start := Blanks(body);
    idLen := Identifier(body[start..]).value.1;
    gapLen := Blanks(body[start..][idLen..]);
    wordLen := Head(body[start..][idLen..][gapLen..], IN);
  }

  lemma {:induction false} TrimmedToNothing(s: string)
    requires TrimSpace(s) == ""
    ensures AllSpace(s)
  {
    var lead, trail := TrimSplits(s);
    assert s == lead + trail;
  }

  /** Whatever is accepted as a membership test is one: a column, IN, a balanced list of elements that
      begin and end in a quote, and white space to the end. */
  lemma TestMeans(body: string) returns (lead: string, c: Column, gap: string, word: string, list: string, trail: string)
    requires InList(body).Some?
    ensures AllBlank(lead) && SoundColumn(c) && AllBlank(gap) && gap != "" && CallHead(word, IN) && AllSpace(trail)
    ensures body == lead + (PrintColumn(c) + (gap + (word + ("(" + (list + (")" + trail))))))
    ensures Balanced(list) && InList(body).value.0 == c.name && Labels(Split(list)) == Some(InList(body).value.1)
  {
    hide InHead, PrintColumn, SoundColumn, CallHead, Labels, Split, Match, TrimSpace, Balanced;
    var rest;
    lead, c, gap, word, rest := HeadMeans(body);
    var open := InHead(body).value.1;
    var close := Match(body, open);
    ClosesAtMatch(body, open);
    EnclosedIsBalanced(body, open);
    list, trail := body[open + 1..close], body[close + 1..];
    TrimmedToNothing(trail);
    BodyParts(body, open, close);
  }

  lemma BodyParts(body: string, open: nat, close: nat)
    requires open < close < |body| && body[open] == '(' && body[close] == ')'
    ensures body[open..] == "(" + (body[open + 1..close] + (")" + body[close + 1..]))
  {
  }
}

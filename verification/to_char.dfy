/** rewriteToChar: TO_CHAR(ts, 'format') becomes strftime('format', ts). */
module ToChar {
  import opened Text
  import opened Scanner
  import opened CallPattern
  import opened Literal

  // ------------------------------------------------------------ strings.NewReplacer

  type Replacer = seq<(string, string)>

  /** The first pair of the list whose old string stands at the start of s. */
  function FirstToken(r: Replacer, s: string): Option<(string, string)> {
    if r == [] then None
    else if r[0].0 != "" && r[0].0 <= s then Some(r[0])
    else FirstToken(r[1..], s)
  }

  lemma {:induction false} FirstTokenMatches(r: Replacer, s: string)
    ensures var t := FirstToken(r, s); t.Some? ==> t.value.0 != "" && t.value.0 <= s && t.value in r
  {
    if r != [] && !(r[0].0 != "" && r[0].0 <= s) {
      FirstTokenMatches(r[1..], s);
    }
  }

  function Replace(r: Replacer, s: string): string
    decreases |s|
  {
    if s == "" then ""
    else
      FirstTokenMatches(r, s);
      match FirstToken(r, s)
      case Some(t) => t.1 + Replace(r, s[|t.0|..])
      case None => [s[0]] + Replace(r, s[1..])
  }

  const PG_TO_STRFTIME: Replacer := [
    ("TZH:TZM", "+00:00"), ("HH24", "%H"), ("HH12", "%I"), ("YYYY", "%Y"), ("TZH", "+00"), ("TZM", "00"),
    ("US", "%f"), ("MS", "%f"), ("MM", "%m"), ("DD", "%d"), ("HH", "%H"), ("MI", "%M"), ("SS", "%S"), ("YY", "%Y")]

  /** The list goes from longer to shorter old strings. */
  predicate LongestFirst(r: Replacer) {
    forall i, j :: 0 <= i < j < |r| ==> |r[i].0| >= |r[j].0|
  }

  lemma TokensLongestFirst()
    ensures LongestFirst(PG_TO_STRFTIME)
    ensures forall i :: 0 <= i < |PG_TO_STRFTIME| ==> PG_TO_STRFTIME[i].0 != ""
  {
  }

  /** In such a list the first token that matches is a longest one that matches. */
  lemma {:induction false} FirstIsLongest(r: Replacer, s: string, i: nat)
    requires LongestFirst(r) && i < |r| && r[i].0 != "" && r[i].0 <= s
    ensures FirstToken(r, s).Some? && |FirstToken(r, s).value.0| >= |r[i].0|
  {
    if !(r[0].0 != "" && r[0].0 <= s) {
      assert forall j :: 0 <= j < |r| - 1 ==> r[1..][j] == r[j + 1];
      FirstIsLongest(r[1..], s, i - 1);
    }
  }

  /** The format translator never takes HH where HH24 stands, nor TZH where TZH:TZM does. */
  lemma TakesLongestToken(s: string, i: nat)
    requires i < |PG_TO_STRFTIME| && PG_TO_STRFTIME[i].0 <= s
    ensures FirstToken(PG_TO_STRFTIME, s).Some?
    ensures |FirstToken(PG_TO_STRFTIME, s).value.0| >= |PG_TO_STRFTIME[i].0|
  {
    TokensLongestFirst();
    FirstIsLongest(PG_TO_STRFTIME, s, i);
  }

  /** A character in none of the old strings. */
  predicate Foreign(r: Replacer, c: char) {
    forall i :: 0 <= i < |r| ==> c !in r[i].0
  }

  lemma {:induction false} TokenBefore(r: Replacer, a: string, c: char, b: string)
    requires Foreign(r, c)
    ensures FirstToken(r, a + ([c] + b)) == FirstToken(r, a)
  {
    if r != [] {
      var t, s := r[0].0, a + ([c] + b);
      assert c !in t;
      if |t| > |a| {
        assert t[|a|] != c && s[|a|] == c;
      }
      assert t <= a <==> t <= s;
      assert forall i :: 0 <= i < |r| - 1 ==> r[1..][i] == r[i + 1];
      TokenBefore(r[1..], a, c, b);
    }
  }

  /** Formats joined by a character of no token are translated one by one. */
  lemma {:induction false} ReplaceJoined(r: Replacer, a: string, c: char, b: string)
    requires Foreign(r, c)
    ensures Replace(r, a + ([c] + b)) == Replace(r, a) + ([c] + Replace(r, b))
    decreases |a|
  {
    var s := a + ([c] + b);
    TokenBefore(r, a, c, b);
    FirstTokenMatches(r, a);
    if a == "" {
      assert s == [c] + b && s[1..] == b;
      NoTokenIn(r);
    } else {
      match FirstToken(r, a)
      case Some(t) =>
        assert s[|t.0|..] == a[|t.0|..] + ([c] + b);
        ReplaceJoined(r, a[|t.0|..], c, b);
        Assoc(t.1, Replace(r, a[|t.0|..]), [c] + Replace(r, b));
      case None =>
        assert s[1..] == a[1..] + ([c] + b);
        ReplaceJoined(r, a[1..], c, b);
        Assoc([a[0]], Replace(r, a[1..]), [c] + Replace(r, b));
    }
  }

  /** Neither the old nor the new strings hold a quote. */
  lemma QuoteIsForeign()
    ensures Foreign(PG_TO_STRFTIME, '\'')
    ensures forall i :: 0 <= i < |PG_TO_STRFTIME| ==> '\'' !in PG_TO_STRFTIME[i].1
  {
  }

  lemma {:induction false} ReplaceWithoutQuote(s: string)
    requires '\'' !in s
    ensures '\'' !in Replace(PG_TO_STRFTIME, s)
    decreases |s|
  {
    if s != "" {
      QuoteIsForeign();
      hide Foreign;
      FirstTokenMatches(PG_TO_STRFTIME, s);
      match FirstToken(PG_TO_STRFTIME, s)
      case Some(t) => ReplaceWithoutQuote(s[|t.0|..]);
      case None => ReplaceWithoutQuote(s[1..]);
    }
  }

  /** The position of the first quote, |s| when there is none. */
  function QuoteAt(s: string): (n: nat)
    ensures n <= |s| && '\'' !in s[..n] && (n < |s| ==> s[n] == '\'')
  {
    if s == "" || s[0] == '\'' then 0 else 1 + QuoteAt(s[1..])
  }

  lemma {:induction false} DoubleQuotesAround(a: string, b: string)
    requires '\'' !in a
    ensures DoubleQuotes(a + (['\''] + b)) == a + (['\''] + (['\''] + DoubleQuotes(b)))
  {
    var s := a + (['\''] + b);
    if a == "" {
      assert s == ['\''] + b && s[1..] == b;
    } else {
      assert s[1..] == a[1..] + (['\''] + b);
      DoubleQuotesAround(a[1..], b);
    }
  }

  /** Translating a format commutes with doubling its quotes: a literal stays one literal. */
  lemma {:induction false} ReplaceKeepsQuoting(s: string)
    ensures Replace(PG_TO_STRFTIME, DoubleQuotes(s)) == DoubleQuotes(Replace(PG_TO_STRFTIME, s))
    decreases |s|
  {
    hide Replace, DoubleQuotes, Foreign;
    var n := QuoteAt(s);
    var a := s[..n];
    QuoteIsForeign();
    ReplaceWithoutQuote(a);
    if n == |s| {
      assert a == s;
      NothingToDouble(s);
      NothingToDouble(Replace(PG_TO_STRFTIME, s));
    } else {
      var b := s[n + 1..];
      assert s == a + (['\''] + b);
      ReplaceKeepsQuoting(b);
      DoubleQuotesAround(a, b);
      ReplaceJoined(PG_TO_STRFTIME, a, '\'', b);
      ReplaceJoined(PG_TO_STRFTIME, a, '\'', ['\''] + DoubleQuotes(b));
      assert "" + (['\''] + DoubleQuotes(b)) == ['\''] + DoubleQuotes(b);
      ReplaceJoined(PG_TO_STRFTIME, "", '\'', DoubleQuotes(b));
      ReplaceNothing(PG_TO_STRFTIME);
      DoubleQuotesAround(Replace(PG_TO_STRFTIME, a), Replace(PG_TO_STRFTIME, b));
    }
  }

  lemma {:induction false} NoTokenIn(r: Replacer)
    ensures FirstToken(r, "") == None
  {
    if r != [] {
      NoTokenIn(r[1..]);
    }
  }

  /** One token at the front. */
  lemma {:induction false} TokenFirst(r: Replacer, i: nat, rest: string)
    requires i < |r| && r[i].0 != "" && forall j :: 0 <= j < i ==> !(r[j].0 <= r[i].0 + rest)
    ensures FirstToken(r, r[i].0 + rest) == Some(r[i]) && Replace(r, r[i].0 + rest) == r[i].1 + Replace(r, rest)
  {
    TokenFound(r, i, r[i].0 + rest);
    Front(r[i].0, rest);
  }

  lemma {:induction false} TokenFound(r: Replacer, i: nat, s: string)
    requires i < |r| && r[i].0 != "" && r[i].0 <= s && forall j :: 0 <= j < i ==> !(r[j].0 <= s)
    ensures FirstToken(r, s) == Some(r[i])
  {
    if i > 0 {
      assert !(r[0].0 <= s);
      assert forall j :: 0 <= j < |r| - 1 ==> r[1..][j] == r[j + 1];
      TokenFound(r[1..], i - 1, s);
    }
  }

  lemma TokensDiffer(i: nat, j: nat)
    requires i < j < |PG_TO_STRFTIME|
    ensures PG_TO_STRFTIME[i].0 != PG_TO_STRFTIME[j].0
  {
    var a, b := PG_TO_STRFTIME[i].0, PG_TO_STRFTIME[j].0;
    if |a| == |b| {
      assert a[0] != b[0] || a[1] != b[1] || a[2] != b[2];
    }
  }

  /** Every token alone becomes its own replacement: none is taken apart by an earlier one. */
  lemma TokenAlone(i: nat)
    requires i < |PG_TO_STRFTIME|
    ensures Replace(PG_TO_STRFTIME, PG_TO_STRFTIME[i].0) == PG_TO_STRFTIME[i].1
  {
    hide Replace, FirstToken;
    var r := PG_TO_STRFTIME;
    TokensLongestFirst();
    assert r[i].0 + "" == r[i].0;
    forall j | 0 <= j < i
      ensures !(r[j].0 <= r[i].0 + "")
    {
      TokensDiffer(j, i);
    }
    TokenFirst(r, i, "");
    ReplaceNothing(r);
    assert r[i].1 + "" == r[i].1;
  }

  lemma ReplaceNothing(r: Replacer)
    ensures Replace(r, "") == ""
  {
  }

  // ------------------------------------------------------------------ rewriteToChar

  const TO_CHAR := "to_char"

  lemma ToCharIsKeyword()
    ensures Keyword(TO_CHAR)
  {
  }

  function Strftime(format: string, expr: string): string {
    "strftime('" + Replace(PG_TO_STRFTIME, format) + "', " + expr + ")"
  }

  /** The translation of a call with this argument list, None when its format is no literal. */
  function Translation(args: seq<string>): Option<string> {
    if |args| == 2 && IsQuoted(TrimSpace(args[1])) then
      var format := TrimSpace(args[1]);
      Some(Strftime(format[1..|format| - 1], TrimSpace(args[0])))
    else None
  }

  /** A call is translated exactly when it has two arguments and the second, trimmed, stands in quotes. */
  lemma TranslationIff(args: seq<string>)
    ensures Translation(args).Some? <==>
            |args| == 2 && var f := TrimSpace(args[1]); |f| >= 2 && f[0] == '\'' && f[|f| - 1] == '\''
  {
  }

  /** What a call is replaced by: its translation, or itself. */
  function Replacement(c: Call): string {
    match Translation(Split(c.body))
    case Some(t) => t
    case None => c.head + ("(" + (c.body + ")"))
  }

  /** One pass from left to right that never reads its own output. */
  function Translated(q: string): string
    decreases |q|
  {
    match FirstCall(q, TO_CHAR)
    case None => q
    case Some(c) =>
      FirstCallText(q, TO_CHAR);
      c.pre + (Replacement(c) + Translated(c.post))
  }

  method RewriteToChar(query: string) returns (q: string)
    ensures q == Translated(query)
  {
    hide Locate, FirstCall, Translated, Translation;
    q := query;
    var from := 0;
    assert q[0..] == q && q[..0] == "" && "" + Translated(q) == Translated(q);
    while true
      invariant 0 <= from <= |q|
      invariant Translated(query) == q[..from] + Translated(q[from..])
      decreases |q| - from
    {
      var p := NextCall(q, from, TO_CHAR);
      if p == None {
        NothingToTranslate(q[from..]);
        Take(q, from);
        return;
      }
      ghost var finished := Round(q, from, p.value);
      var start, open, end := p.value.start, p.value.open, p.value.end;
      var args := SplitArgs(q[open + 1..end]);
      var r := Translate(args);
      if r.Some? {
        var repl := r.value;
        Front(finished, q[end + 1..]);
        q, from := q[..start] + repl + q[end + 1..], start + |repl|;
        continue;
      }
      from := end + 1;
    }
  }

  /** One round finishes the text up to the end of the call it looks at. */
  lemma Round(q: string, from: nat, p: Place) returns (finished: string)
    requires FoundAfter(q, from, TO_CHAR, p)
    ensures q[..from] + Translated(q[from..]) == finished + Translated(q[p.end + 1..])
    ensures var r := Translation(Split(q[p.open + 1..p.end]));
            && (r == None ==> finished == q[..p.end + 1])
            && (r.Some? ==> q[..p.start] + r.value + q[p.end + 1..] == finished + q[p.end + 1..] &&
                            |finished| == p.start + |r.value|)
  {
    hide Locate, FirstCall, Translated, Translation;
    var start, open, end := p.start, p.open, p.end;
    var c := Call(q[from..start], q[start..open], q[open + 1..end], q[end + 1..]);
    CallInSuffix(q, from, TO_CHAR, p);
    var t := Replacement(c);
    finished := q[..from] + (c.pre + t);
    TranslatedStep(q[from..], c);
    Assoc(c.pre, t, Translated(c.post));
    Assoc(q[..from], c.pre + t, Translated(c.post));
    Assoc(q[..from], c.pre, t);
    assert q[..start] == q[..from] + c.pre;
    if Translation(Split(c.body)) == None {
      PlaceInText(q[from..], TO_CHAR);
      Untranslated(q, start, open, end);
    }
  }

  lemma NothingToTranslate(t: string)
    requires Locate(t, TO_CHAR) == None
    ensures Translated(t) == t
  {
  }

  lemma TranslatedStep(t: string, c: Call)
    requires FirstCall(t, TO_CHAR) == Some(c)
    ensures Translated(t) == c.pre + (Replacement(c) + Translated(c.post))
  {
  }

  lemma Untranslated(q: string, start: nat, open: nat, end: nat)
    requires start <= open < end < |q| && q[open] == '(' && q[end] == ')'
    ensures q[..end + 1] == q[..start] + (q[start..open] + ("(" + (q[open + 1..end] + ")")))
  {
  }

  method Translate(args: seq<string>) returns (r: Option<string>)
    ensures r == Translation(args)
  {
    if |args| == 2 {
      var expr := TrimSpace(args[0]);
      var format := TrimSpace(args[1]);
      if |format| >= 2 && format[0] == '\'' && format[|format| - 1] == '\'' {
        return Some("strftime('" + Replace(PG_TO_STRFTIME, format[1..|format| - 1]) + "', " + expr + ")");
      }
    }
    return None;
  }

  // ------------------------------------------------------- printed queries

  /** A query as text and calls in turn; a body may hold calls of its own. */
  datatype Query = End(text: string) | Then(text: string, head: string, body: string, rest: Query)

  function Print(q: Query): string {
    match q
    case End(text) => text
    case Then(text, head, body, rest) => Call(text, head, body, Print(rest)).Text()
  }

  /** Every call is the first that can be read, and closed; after the last comes text without one or
      text whose first call is never closed. */
  predicate Sound(q: Query) {
    match q
    case End(text) => FirstCall(text, TO_CHAR) == None
    case Then(text, head, body, rest) => Leads(text, head, TO_CHAR) && Balanced(body) && Sound(rest)
  }

  /** The query that a text is. */
  function Read(s: string): Query
    decreases |s|
  {
    match FirstCall(s, TO_CHAR)
    case None => End(s)
    case Some(c) =>
      FirstCallText(s, TO_CHAR);
      Then(c.pre, c.head, c.body, Read(c.post))
  }

  /** Every text is a sound query. */
  lemma {:induction false} ReadIsSound(s: string)
    ensures Sound(Read(s)) && Print(Read(s)) == s
    decreases |s|
  {
    hide FirstCall, Balanced, Leads;
    if FirstCall(s, TO_CHAR).Some? {
      ToCharIsKeyword();
      FirstCallLeads(s, TO_CHAR);
      ReadIsSound(FirstCall(s, TO_CHAR).value.post);
    }
  }

  /** The text between the calls stays; each outermost call becomes its replacement. */
  function PrintTranslated(q: Query): string {
    match q
    case End(text) => text
    case Then(text, head, body, rest) =>
      text + (Replacement(Call(text, head, body, Print(rest))) + PrintTranslated(rest))
  }

  lemma {:induction false} TranslatesEachCall(q: Query)
    requires Sound(q)
    ensures Translated(Print(q)) == PrintTranslated(q)
  {
    match q
    case End(text) =>
    case Then(text, head, body, rest) =>
      ToCharIsKeyword();
      LeadingCall(Call(text, head, body, Print(rest)), TO_CHAR);
      TranslatesEachCall(rest);
  }

  /** TO_CHAR(expr, 'format') with any layout: the arguments change places and the format
      is translated; calls inside expr are copied as they stand. */
  lemma LiteralFormat(lead: string, expr: string, trail: string, lead2: string, format: string, trail2: string)
    requires AllSpace(lead) && AllSpace(trail) && AllSpace(lead2) && AllSpace(trail2)
    requires Argument(expr) && Tight(expr)
    ensures var args := [lead + expr + trail, lead2 + SqlStringLiteral(format) + trail2];
            && Split(Join(args, ",")) == args && Balanced(Join(args, ","))
            && Translation(args) == Some("strftime(" + SqlStringLiteral(Replace(PG_TO_STRFTIME, format)) + ", " + expr + ")")
  {
    hide Replace, DoubleQuotes, Cut, Scan, Stays, TrimSpace, Split, Argument, Balanced, AllSpace, SqlStringLiteral;
    var lit := SqlStringLiteral(format);
    var args := [lead + expr + trail, lead2 + lit + trail2];
    LiteralIsArgument(format);
    TrimPadded(lead, expr, trail);
    TrimPadded(lead2, lit, trail2);
    PaddedIsArgument(lead, expr, trail);
    PaddedIsArgument(lead2, lit, trail2);
    ArgumentsSplit(args);
    TranslationOf(args, expr, format);
  }

  lemma ArgumentsSplit(args: seq<string>)
    requires args != [] && forall i :: 0 <= i < |args| ==> Argument(args[i])
    ensures Split(Join(args, ",")) == args && Balanced(Join(args, ","))
  {
    SplitJoin(args);
    JoinBalanced(args);
  }

  lemma TranslationOf(args: seq<string>, expr: string, format: string)
    requires |args| == 2 && TrimSpace(args[0]) == expr && TrimSpace(args[1]) == SqlStringLiteral(format)
    ensures Translation(args) == Some("strftime(" + SqlStringLiteral(Replace(PG_TO_STRFTIME, format)) + ", " + expr + ")")
  {
    hide Replace, DoubleQuotes, TrimSpace;
    var lit := SqlStringLiteral(format);
    assert lit[1..|lit| - 1] == DoubleQuotes(format);
    ReplaceKeepsQuoting(format);
    StrftimeText(Replace(PG_TO_STRFTIME, format), expr);
  }

  lemma StrftimeText(format: string, expr: string)
    ensures "strftime('" + DoubleQuotes(format) + "', " + expr + ")" == "strftime(" + SqlStringLiteral(format) + ", " + expr + ")"
  {
    hide DoubleQuotes;
    var d := DoubleQuotes(format);
    assert "strftime('" == "strftime(" + "'" && "', " == "'" + ", ";
    assert ("strftime(" + "'") + d + ("'" + ", ") == "strftime(" + ("'" + (d + "'")) + ", ";
  }

  lemma PaddedIsArgument(lead: string, s: string, trail: string)
    requires AllSpace(lead) && AllSpace(trail) && Argument(s)
    ensures Argument(lead + s + trail)
  {
    assert Plain(lead) && Plain(trail);
    PlainIsArgument(lead);
    PlainIsArgument(trail);
    ArgumentPair(lead, s);
    ArgumentPair(lead + s, trail);
  }
}

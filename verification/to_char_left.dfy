/** What rewriteToChar leaves behind: it copies the format and the first argument of a call it translates,
    skips the whole of a call it does not, and stops at a call that is never closed, so that calls
    stay there which it could translate. */
module ToCharLeft {
  import opened Text
  import opened Scanner
  import opened CallPattern
  import opened Literal
  import opened ToChar

  // ----------------------------------------------------------- counting calls

  /** A call that begins the text and finds its closing parenthesis. */
  predicate ClosedAt(s: string) {
    Head(s, TO_CHAR) >= 0 && Match(s, Head(s, TO_CHAR)) >= 0
  }

  function BodyAt(s: string): string
    requires ClosedAt(s)
  {
    ClosesAtMatch(s, Head(s, TO_CHAR));
    s[Head(s, TO_CHAR) + 1..Match(s, Head(s, TO_CHAR))]
  }

  /** A call with a literal format begins the text: one that the program translates. */
  predicate LiteralAt(s: string) {
    ClosedAt(s) && Translation(Split(BodyAt(s))).Some?
  }

  /** The calls of a text, at any depth and inside literals too. */
  function Calls(s: string, boundary: bool): nat {
    if s == [] then 0
    else (if boundary && Head(s, TO_CHAR) >= 0 then 1 else 0) + Calls(s[1..], !IsWord(s[0]))
  }

  /** The calls of a text with a literal format. */
  function Literals(s: string, boundary: bool): nat {
    if s == [] then 0
    else (if boundary && LiteralAt(s) then 1 else 0) + Literals(s[1..], !IsWord(s[0]))
  }

  /** Every call of the text is closed in the text. */
  predicate AllClosed(s: string, boundary: bool) {
    s == [] || ((boundary && Head(s, TO_CHAR) >= 0 ==> ClosedAt(s)) && AllClosed(s[1..], !IsWord(s[0])))
  }

  lemma {:induction false} NoCallsFound(s: string, boundary: bool)
    ensures Find(s, TO_CHAR, boundary) == |s| <==> Calls(s, boundary) == 0
  {
    hide Head;
    if s != [] {
      NoCallsFound(s[1..], !IsWord(s[0]));
    }
  }

  lemma {:induction false} NoneAtAll(s: string, boundary: bool)
    requires Calls(s, boundary) == 0
    ensures Literals(s, boundary) == 0 && AllClosed(s, boundary)
  {
    hide Head, Match;
    if s != [] {
      NoneAtAll(s[1..], !IsWord(s[0]));
    }
  }

  /** The i-th character is a letter t at the start of a word. */
  predicate StartsAt(s: string, boundary: bool, i: nat)
    requires i < |s|
  {
    Folds(s[i], 't') && if i == 0 then boundary else !IsWord(s[i - 1])
  }

  lemma {:induction false} NoStart(s: string, boundary: bool)
    requires forall i :: 0 <= i < |s| ==> !StartsAt(s, boundary, i)
    ensures Calls(s, boundary) == 0
  {
    if s != [] {
      assert TO_CHAR[0] == 't' && !StartsAt(s, boundary, 0);
      var rest, after := s[1..], !IsWord(s[0]);
      forall i | 0 <= i < |rest|
        ensures !StartsAt(rest, after, i)
      {
        assert !StartsAt(s, boundary, i + 1);
      }
      NoStart(rest, after);
    }
  }

  // ----------------------------------------------------------- counting in pieces

  /** A character that cannot stand in a call before its parenthesis, nor be that parenthesis. */
  predicate Mark(c: char) {
    !IsBlank(c) && c != '(' && forall i :: 0 <= i < |TO_CHAR| ==> !Folds(c, TO_CHAR[i])
  }

  /** No call can begin in a and end in b. */
  predicate Parted(a: string, b: string) {
    a == [] || b == [] || Mark(b[0]) || Seam(a, b)
  }

  lemma {:induction false} SpellsToMark(a: string, b: string, kw: string)
    requires b != [] && forall i :: 0 <= i < |kw| ==> !Folds(b[0], kw[i])
    ensures Spells(a + b, kw) == Spells(a, kw)
  {
    if a == [] {
      assert a + b == b;
    } else if kw != "" {
      assert (a + b)[1..] == a[1..] + b;
      assert forall i :: 0 <= i < |kw| - 1 ==> kw[1..][i] == kw[i + 1];
      SpellsToMark(a[1..], b, kw[1..]);
    }
  }

  lemma HeadToMark(a: string, b: string)
    requires b != [] && Mark(b[0])
    ensures Head(a + b, TO_CHAR) == Head(a, TO_CHAR)
  {
    ToCharIsKeyword();
    SpellsToMark(a, b, TO_CHAR);
    if Spells(a, TO_CHAR) {
      SpellsLength(a, TO_CHAR);
      assert (a + b)[|TO_CHAR|..] == a[|TO_CHAR|..] + b;
      BlanksAppend(a[|TO_CHAR|..], b);
    }
  }

  lemma HeadAcross(a: string, b: string)
    requires a != [] && Parted(a, b)
    ensures Head(a + b, TO_CHAR) == Head(a, TO_CHAR)
  {
    hide Head;
    ToCharIsKeyword();
    if b == [] {
      assert a + b == a;
    } else if Mark(b[0]) {
      HeadToMark(a, b);
    } else {
      HeadAppend(a, b, TO_CHAR);
    }
  }

  /** What follows a piece is read as after a word boundary, or begins with a mark. */
  lemma BoundaryAfter(a: string, b: string, boundary: bool)
    requires |a| == 1 && Parted(a, b)
    ensures Calls(b, !IsWord(a[0])) == Calls(b, true) && Literals(b, !IsWord(a[0])) == Literals(b, true)
    ensures AllClosed(b, !IsWord(a[0])) == AllClosed(b, true)
  {
    if b != [] && Mark(b[0]) {
      assert Head(b, TO_CHAR) < 0 by {
        assert TO_CHAR[0] == 't';
      }
    }
  }

  lemma {:induction false} CallsAppend(a: string, b: string, boundary: bool)
    requires Parted(a, b)
    ensures Calls(a + b, boundary) == Calls(a, boundary) + Calls(b, a != [] || boundary)
    decreases |a|
  {
    hide Head;
    if a == [] {
      assert a + b == b;
    } else {
      HeadAcross(a, b);
      assert (a + b)[1..] == a[1..] + b;
      CallsAppend(a[1..], b, !IsWord(a[0]));
      if |a| == 1 {
        BoundaryAfter(a, b, boundary);
      }
    }
  }

  lemma ClosedAcross(a: string, b: string)
    requires a != [] && Parted(a, b) && ClosedAt(a)
    ensures ClosedAt(a + b) && BodyAt(a + b) == BodyAt(a)
  {
    hide Head, Reach;
    HeadAcross(a, b);
    var h := Head(a, TO_CHAR);
    assert (a + b)[h..] == a[h..] + b;
    ReachAppend(START, a[h..], b);
    ClosesAtMatch(a, h);
  }

  lemma {:induction false} LiteralsAppend(a: string, b: string, boundary: bool)
    requires Parted(a, b) && AllClosed(a, boundary)
    ensures Literals(a + b, boundary) == Literals(a, boundary) + Literals(b, a != [] || boundary)
    ensures AllClosed(a + b, boundary) <==> AllClosed(b, a != [] || boundary)
    decreases |a|
  {
    hide Head, Match, Translation, Split, BodyAt;
    if a == [] {
      assert a + b == b;
    } else {
      HeadAcross(a, b);
      if boundary && Head(a, TO_CHAR) >= 0 {
        ClosedAcross(a, b);
      }
      assert (a + b)[1..] == a[1..] + b;
      LiteralsAppend(a[1..], b, !IsWord(a[0]));
      if |a| == 1 {
        BoundaryAfter(a, b, boundary);
      }
    }
  }

  /** The calls with a literal format that begin in a when b follows it. */
  function Within(a: string, boundary: bool, b: string): nat {
    if a == [] then 0
    else (if boundary && LiteralAt(a + b) then 1 else 0) + Within(a[1..], !IsWord(a[0]), b)
  }

  lemma {:induction false} WithinAppend(a: string, b: string, boundary: bool)
    requires Parted(a, b)
    ensures Literals(a + b, boundary) == Within(a, boundary, b) + Literals(b, a != [] || boundary)
    decreases |a|
  {
    hide LiteralAt;
    if a == [] {
      assert a + b == b;
    } else {
      assert (a + b)[1..] == a[1..] + b;
      WithinAppend(a[1..], b, !IsWord(a[0]));
      if |a| == 1 {
        BoundaryAfter(a, b, boundary);
      }
    }
  }

  /** Where the calls of a piece are closed in it, what follows does not matter. */
  lemma WithinClosed(a: string, b: string, boundary: bool)
    requires Parted(a, b) && AllClosed(a, boundary)
    ensures Within(a, boundary, b) == Literals(a, boundary)
  {
    hide Within, Literals, AllClosed;
    WithinAppend(a, b, boundary);
    LiteralsAppend(a, b, boundary);
  }

  lemma NoneWithin(a: string, b: string, boundary: bool)
    requires Parted(a, b) && Calls(a, boundary) == 0
    ensures Within(a, boundary, b) == 0
  {
    NoneAtAll(a, boundary);
    WithinClosed(a, b, boundary);
  }

  /** Text in which no call begins, before one that does. */
  lemma {:induction false} SkipText(a: string, x: string, boundary: bool)
    requires Find(a + x, TO_CHAR, boundary) >= |a|
    ensures var after := if a == [] then boundary else !IsWord(a[|a| - 1]);
            Calls(a + x, boundary) == Calls(x, after) && Literals(a + x, boundary) == Literals(x, after)
    decreases |a|
  {
    hide Head, Match, Translation, Split;
    if a == [] {
      assert a + x == x;
    } else {
      assert (a + x)[1..] == a[1..] + x;
      SkipText(a[1..], x, !IsWord(a[0]));
    }
  }

  // ------------------------------------------------------ what one call leaves

  /** The translated format and the first argument of a call that is translated. */
  function FormatOf(body: string): string
    requires Translation(Split(body)).Some?
  {
    var format := TrimSpace(Split(body)[1]);
    Replace(PG_TO_STRFTIME, format[1..|format| - 1])
  }

  function FirstOf(body: string): string
    requires Translation(Split(body)).Some?
  {
    TrimSpace(Split(body)[0])
  }

  const STRFTIME := "strftime('"

  /** A translated call, piece by piece. */
  function Translates(format: string, expr: string): string {
    STRFTIME + (format + ("'," + (" " + (expr + ")"))))
  }

  lemma ReplacementOf(c: Call)
    requires Translation(Split(c.body)).Some?
    ensures Replacement(c) == Translates(FormatOf(c.body), FirstOf(c.body))
  {
    hide Split, TrimSpace, Replace;
    var format, expr := FormatOf(c.body), FirstOf(c.body);
    assert "'," + " " == "', ";
    assert "strftime('" + format + "', " + expr + ")" == Translates(format, expr);
  }

  lemma StrftimeHasNone()
    ensures Calls(STRFTIME, true) == 0 && Calls("',", true) == 0 && Calls(")", true) == 0
  {
    hide Calls, Find;
    NoStart(STRFTIME, true);
    MarksHaveNone("',");
    MarksHaveNone(")");
  }

  lemma MarksHaveNone(s: string)
    requires forall i :: 0 <= i < |s| ==> Mark(s[i])
    ensures Calls(s, true) == 0
  {
    hide Calls, Find;
    NoCallWithout(s, TO_CHAR, true);
    NoCallsFound(s, true);
  }

  /** A translated call holds just the calls of its format and its first argument. */
  lemma TranslatesCalls(format: string, expr: string)
    ensures Calls(Translates(format, expr), true) == Calls(format, true) + Calls(expr, true)
  {
    hide Calls;
    StrftimeHasNone();
    var p1 := expr + ")";
    var p2 := " " + p1;
    var p3 := "'," + p2;
    CallsAppend(expr, ")", true);
    BlankFirst(p1);
    CallsAppend("',", p2, true);
    CallsAppend(format, p3, true);
    CallsAppend(STRFTIME, format + p3, true);
  }

  lemma BlankFirst(s: string)
    ensures Calls(" " + s, true) == Calls(s, true)
    ensures Literals(" " + s, true) == Literals(s, true)
  {
    assert (" " + s)[1..] == s && TO_CHAR[0] == 't';
  }

  /** With its place in the text, what begins in the format and what begins in the first argument. */
  lemma TranslatesLiterals(format: string, expr: string, rest: string)
    ensures Literals(Translates(format, expr) + rest, true) ==
            Within(format, true, AfterFormat(expr, rest)) + Within(expr, true, ")" + rest) + Literals(rest, true)
  {
    hide Calls, Literals, Within;
    StrftimeHasNone();
    var p0 := ")" + rest;
    var p1 := expr + p0;
    var p2 := " " + p1;
    var p3 := "'," + p2;
    WithinAppend(")", rest, true);
    NoneWithin(")", rest, true);
    WithinAppend(expr, p0, true);
    BlankFirst(p1);
    WithinAppend("',", p2, true);
    NoneWithin("',", p2, true);
    WithinAppend(format, p3, true);
    WithinAppend(STRFTIME, format + p3, true);
    NoneWithin(STRFTIME, format + p3, true);
    TranslatesText(format, expr, rest);
  }

  /** What follows the format in the text. */
  function AfterFormat(expr: string, rest: string): string {
    "'," + (" " + (expr + (")" + rest)))
  }

  lemma TranslatesText(format: string, expr: string, rest: string)
    ensures Translates(format, expr) + rest == STRFTIME + (format + AfterFormat(expr, rest))
  {
  }

  /** The head of a call after its first letter, with the parenthesis. */
  lemma HeadLetters(head: string)
    requires CallHead(head, TO_CHAR)
    ensures head != "" && Calls((head + "(")[1..], false) == 0 && IsWord(head[0])
  {
    hide Calls;
    ToCharIsKeyword();
    var s := (head + "(")[1..];
    forall i | 0 <= i < |s|
      ensures !Folds(s[i], 't')
    {
      if i + 1 < |TO_CHAR| {
        SpelledLetters(head, TO_CHAR, i + 1);
      } else if i + 1 < |head| {
        AllBlankAt(head[|TO_CHAR|..], i + 1 - |TO_CHAR|);
      }
    }
    NoStart(s, false);
    SpelledLetters(head, TO_CHAR, 0);
  }

  /** A call that stays is one call and those of its body; the text after it counts on its own. */
  lemma StandingCall(head: string, body: string, rest: string)
    requires CallHead(head, TO_CHAR) && Balanced(body)
    ensures var s := head + ("(" + (body + (")" + rest)));
            && Calls(s, true) == 1 + Calls(body, true) + Calls(rest, true)
            && ClosedAt(s) && BodyAt(s) == body
  {
    hide Calls, Head, Match;
    ToCharIsKeyword();
    var tail := body + (")" + rest);
    var s := head + ("(" + tail);
    HeadOfPrinted(head, tail, TO_CHAR);
    HeadLetters(head);
    var open := (head + "(")[1..];
    assert s[1..] == open + tail;
    CallsStep(s);
    CallsAppend(open, tail, false);
    CallsAppend(body, ")" + rest, true);
    CallsAppend(")", rest, true);
    StrftimeHasNone();
    MatchesBody(body, rest);
    MatchSkips(head, "(" + tail);
    BodyOfText(head, body, rest);
  }

  lemma CallsStep(s: string)
    requires s != "" && Head(s, TO_CHAR) >= 0
    ensures Calls(s, true) == 1 + Calls(s[1..], !IsWord(s[0]))
  {
  }

  lemma BodyOfText(head: string, body: string, rest: string)
    ensures var s := head + ("(" + (body + (")" + rest))); s[|head| + 1..|head| + 1 + |body|] == body
  {
  }

  lemma StandingLiterals(head: string, body: string, rest: string)
    requires CallHead(head, TO_CHAR) && Balanced(body)
    ensures var s := head + ("(" + (body + (")" + rest)));
            Literals(s, true) == (if Translation(Split(body)).Some? then 1 else 0) + Within(body, true, ")" + rest) + Literals(rest, true)
  {
    hide Calls, Head, Match, Translation, Split, ClosedAt, BodyAt, Within;
    ToCharIsKeyword();
    var tail := body + (")" + rest);
    var s := head + ("(" + tail);
    StandingCall(head, body, rest);
    HeadLetters(head);
    var open := (head + "(")[1..];
    assert s[1..] == open + tail && s[0] == head[0];
    assert LiteralAt(s) == Translation(Split(body)).Some?;
    LiteralsSplit(open, tail, body, rest);
  }

  lemma LiteralsSplit(open: string, tail: string, body: string, rest: string)
    requires tail == body + (")" + rest) && Calls(open, false) == 0 && open != "" && open[|open| - 1] == '('
    ensures Literals(open + tail, false) == Within(body, true, ")" + rest) + Literals(rest, true)
  {
    hide Calls, Literals, Within;
    StrftimeHasNone();
    WithinAppend(open, tail, false);
    NoneWithin(open, tail, false);
    WithinAppend(body, ")" + rest, true);
    WithinAppend(")", rest, true);
    NoneWithin(")", rest, true);
  }

  // ------------------------------------------------------ what a query leaves

  /** The calls an outermost call leaves. */
  function LeftBy(body: string): nat {
    if Translation(Split(body)).Some? then Calls(FormatOf(body), true) + Calls(FirstOf(body), true)
    else 1 + Calls(body, true)
  }

  function Left(q: Query): nat {
    match q
    case End(text) => Calls(text, true)
    case Then(_, _, body, rest) => LeftBy(body) + Left(rest)
  }

  /** The calls with a literal format that an outermost call leaves, before the text after it. */
  function LiteralsLeftBy(body: string, after: string): nat {
    if Translation(Split(body)).Some?
    then Within(FormatOf(body), true, AfterFormat(FirstOf(body), after)) + Within(FirstOf(body), true, ")" + after)
    else Within(body, true, ")" + after)
  }

  function LiteralsIn(q: Query): nat {
    match q
    case End(text) => Literals(text, true)
    case Then(_, _, body, rest) => LiteralsLeftBy(body, PrintTranslated(rest)) + LiteralsIn(rest)
  }

  /** What replaces a call, and the text after it. */
  lemma AfterReplacement(c: Call, rest: string)
    requires CallHead(c.head, TO_CHAR) && Balanced(c.body)
    ensures Calls(Replacement(c) + rest, true) == LeftBy(c.body) + Calls(rest, true)
  {
    hide Calls, Translation, Split, Replacement;
    if Translation(Split(c.body)).Some? {
      var format, expr := FormatOf(c.body), FirstOf(c.body);
      var t := Translates(format, expr);
      ReplacementOf(c);
      TranslatesCalls(format, expr);
      assert t[|t| - 1] == ')';
      CallsAppend(t, rest, true);
    } else {
      StandingCall(c.head, c.body, rest);
      StandsAsItIs(c, rest);
    }
  }

  lemma StandsAsItIs(c: Call, rest: string)
    requires Translation(Split(c.body)) == None
    ensures Replacement(c) + rest == c.head + ("(" + (c.body + (")" + rest)))
  {
  }

  lemma LiteralsAfterReplacement(c: Call, rest: string)
    requires CallHead(c.head, TO_CHAR) && Balanced(c.body)
    ensures Literals(Replacement(c) + rest, true) == LiteralsLeftBy(c.body, rest) + Literals(rest, true)
  {
    hide Calls, Literals, Within, Translation, Split, Replacement;
    if Translation(Split(c.body)).Some? {
      ReplacementOf(c);
      TranslatesLiterals(FormatOf(c.body), FirstOf(c.body), rest);
    } else {
      StandingLiterals(c.head, c.body, rest);
      StandsAsItIs(c, rest);
    }
  }

  /** The text before a call adds nothing, whatever becomes of the call. */
  lemma BeforeReplacement(c: Call, rest: string)
    requires Leads(c.pre, c.head, TO_CHAR)
    ensures Calls(c.pre + (Replacement(c) + rest), true) == Calls(Replacement(c) + rest, true)
    ensures Literals(c.pre + (Replacement(c) + rest), true) == Literals(Replacement(c) + rest, true)
  {
    hide Calls, Literals, Within, Translation, Split, Replacement, Find, CallHead;
    ToCharIsKeyword();
    var x := Replacement(c) + rest;
    if Translation(Split(c.body)).Some? {
      ReplacementOf(c);
      assert x[0] == 's' && Mark('s');
      NoCallPrefix(c.pre, c.head + "(", TO_CHAR, true);
      NoCallsFound(c.pre, true);
      CallsAppend(c.pre, x, true);
      WithinAppend(c.pre, x, true);
      NoneWithin(c.pre, x, true);
    } else {
      StandsAsItIs(c, rest);
      LeadsOn(c.pre, c.head, c.body + (")" + rest), TO_CHAR);
      SkipText(c.pre, x, true);
      FoundAtBoundary(c.pre + x, TO_CHAR, true);
    }
  }

  /** How many calls are left of any query, exactly: every outermost call that is not translated and the
      calls inside, of a translated call those of its format and its first argument, of another those
      of its whole body; and all calls from the first on that is never closed. */
  lemma {:induction false} CallsLeft(q: Query)
    requires Sound(q)
    ensures Calls(Translated(Print(q)), true) == Left(q)
  {
    hide Calls, Replacement, Translated, LeftBy, Leads, FirstCall;
    TranslatesEachCall(q);
    match q
    case End(text) =>
    case Then(text, head, body, rest) =>
      var c := Call(text, head, body, Print(rest));
      CallsLeft(rest);
      TranslatesEachCall(rest);
      LeadsHasHead(text, head);
      BeforeReplacement(c, PrintTranslated(rest));
      AfterReplacement(c, PrintTranslated(rest));
  }

  lemma LeadsHasHead(text: string, head: string)
    requires Leads(text, head, TO_CHAR)
    ensures CallHead(head, TO_CHAR)
  {
  }

  /** How many calls with a literal format are left of any query, exactly: those that begin inside the
      format or the first argument of a translated call or inside the body of another, and those from
      the first call on that is never closed. */
  lemma {:induction false} LiteralsLeft(q: Query)
    requires Sound(q)
    ensures Literals(Translated(Print(q)), true) == LiteralsIn(q)
  {
    hide Calls, Literals, Within, Replacement, Translated, LiteralsLeftBy, Leads, FirstCall;
    TranslatesEachCall(q);
    match q
    case End(text) =>
    case Then(text, head, body, rest) =>
      var c := Call(text, head, body, Print(rest));
      LiteralsLeft(rest);
      TranslatesEachCall(rest);
      LeadsHasHead(text, head);
      BeforeReplacement(c, PrintTranslated(rest));
      LiteralsAfterReplacement(c, PrintTranslated(rest));
  }

  /** No call stands inside an outermost call, in the format and the first argument of one that is
      translated or in the body of one that is not, and none is never closed. */
  predicate Quiet(q: Query) {
    match q
    case End(text) => NoCall(text, TO_CHAR)
    case Then(_, _, body, rest) =>
      (if Translation(Split(body)).Some? then NoCall(FormatOf(body), TO_CHAR) && NoCall(FirstOf(body), TO_CHAR)
       else NoCall(body, TO_CHAR)) && Quiet(rest)
  }

  /** The outermost calls that are not translated. */
  function Refused(q: Query): nat {
    match q
    case End(_) => 0
    case Then(_, _, body, rest) => (if Translation(Split(body)).Some? then 0 else 1) + Refused(rest)
  }

  lemma {:induction false} QuietCounts(q: Query)
    ensures Left(q) >= Refused(q) && (Left(q) == Refused(q) <==> Quiet(q))
    ensures Quiet(q) ==> LiteralsIn(q) == 0
  {
    hide Calls, Literals, Within, Translation, Split, FormatOf, FirstOf, Find, Parted, PrintTranslated, AfterFormat;
    match q
    case End(text) => QuietText(text);
    case Then(_, _, body, rest) =>
      QuietCounts(rest);
      var after := PrintTranslated(rest);
      ParenthesisParts(body, after);
      if Translation(Split(body)).Some? {
        ParenthesisParts(FirstOf(body), after);
        QuoteParts(FormatOf(body), FirstOf(body), after);
        QuietWithin(FormatOf(body), AfterFormat(FirstOf(body), after));
        QuietWithin(FirstOf(body), ")" + after);
      } else {
        QuietWithin(body, ")" + after);
      }
  }

  lemma ParenthesisParts(a: string, after: string)
    ensures Parted(a, ")" + after)
  {
  }

  lemma QuoteParts(a: string, expr: string, after: string)
    ensures Parted(a, AfterFormat(expr, after))
  {
  }

  lemma QuietWithin(a: string, b: string)
    requires Parted(a, b)
    ensures NoCall(a, TO_CHAR) <==> Calls(a, true) == 0
    ensures NoCall(a, TO_CHAR) ==> Within(a, true, b) == 0
  {
    NoCallsFound(a, true);
    if Calls(a, true) == 0 {
      NoneWithin(a, b, true);
    }
  }

  lemma QuietText(s: string)
    ensures NoCall(s, TO_CHAR) <==> Calls(s, true) == 0
    ensures NoCall(s, TO_CHAR) ==> Literals(s, true) == 0 && AllClosed(s, true)
  {
    NoCallsFound(s, true);
    if Calls(s, true) == 0 {
      NoneAtAll(s, true);
    }
  }

  /** For every text: nothing is left but the outermost calls without a literal format exactly when no
      call stands inside an outermost one and none is never closed; then no call with a literal
      format is left. */
  lemma OnlyRefusedLeft(s: string)
    ensures Calls(Translated(s), true) == Refused(Read(s)) <==> Quiet(Read(s))
    ensures Quiet(Read(s)) ==> Literals(Translated(s), true) == 0
  {
    hide Calls, Literals, Translated, Sound, Print, Read;
    ReadIsSound(s);
    CallsLeft(Read(s));
    LiteralsLeft(Read(s));
    QuietCounts(Read(s));
  }

  // ---------------------------------------------------------------- three inputs

  /** The argument list expr,'format'. */
  lemma PlainArguments(expr: string, format: string)
    requires Argument(expr) && Tight(expr)
    ensures var body := expr + ("," + SqlStringLiteral(format));
            && Balanced(body) && Translation(Split(body)).Some?
            && FirstOf(body) == expr && FormatOf(body) == DoubleQuotes(Replace(PG_TO_STRFTIME, format))
  {
    hide Replace, DoubleQuotes, Cut, Split, Balanced, TrimSpace, Argument, Tight;
    var lit := SqlStringLiteral(format);
    var args := [expr, lit];
    LiteralIsArgument(format);
    ArgumentsSplit(args);
    assert Join(args, ",") == expr + ("," + lit);
    TrimTight(expr);
    TrimTight(lit);
    assert lit[1..|lit| - 1] == DoubleQuotes(format);
    ReplaceKeepsQuoting(format);
  }

  function CallOn(body: string): string {
    TO_CHAR + ("(" + (body + (")" + "")))
  }

  lemma CallOnIsArgument(body: string)
    requires Balanced(body)
    ensures Argument(CallOn(body)) && Tight(CallOn(body))
  {
    hide Cut, Scan, Stays;
    Parenthesized(body);
    assert Plain(TO_CHAR);
    PlainIsArgument(TO_CHAR);
    ArgumentPair(TO_CHAR, "(" + body + ")");
    assert CallOn(body) == TO_CHAR + ("(" + body + ")");
  }

  lemma SpellsToChar()
    ensures CallHead(TO_CHAR, TO_CHAR)
  {
  }

  /** A closed call with a literal format and no call inside. */
  lemma OneLiteral(body: string)
    requires Balanced(body) && NoCall(body, TO_CHAR) && Translation(Split(body)).Some?
    ensures Literals(CallOn(body), true) == 1 && AllClosed(CallOn(body), true)
  {
    hide Calls, Literals, AllClosed, Translation, Split, Balanced, Find, Within;
    SpellsToChar();
    QuietWithin(body, ")" + "");
    QuietNothing();
    StandingLiterals(TO_CHAR, body, "");
    StandingClosed(body);
  }

  lemma StandingClosed(body: string)
    requires Balanced(body) && NoCall(body, TO_CHAR)
    ensures AllClosed(CallOn(body), true)
  {
    hide Calls, Literals, Find, Head, Match, Balanced;
    var tail := body + (")" + "");
    var s := CallOn(body);
    SpellsToChar();
    StandingCall(TO_CHAR, body, "");
    HeadLetters(TO_CHAR);
    var open := (TO_CHAR + "(")[1..];
    assert s[1..] == open + tail && s[0] == TO_CHAR[0];
    ClosedSplit(open, body);
  }

  lemma ClosedSplit(open: string, body: string)
    requires Calls(open, false) == 0 && open != "" && open[|open| - 1] == '(' && NoCall(body, TO_CHAR)
    ensures AllClosed(open + (body + (")" + "")), false)
  {
    hide Calls, Literals, AllClosed, Find;
    assert ")" + "" == ")";
    StrftimeHasNone();
    NoneAtAll(open, false);
    NoCallsFound(body, true);
    NoneAtAll(body, true);
    NoneAtAll(")", true);
    LiteralsAppend(open, body + ")", false);
    LiteralsAppend(body, ")", true);
  }

  lemma QuietNothing()
    ensures Calls("", true) == 0 && Literals("", true) == 0 && AllClosed("", true)
  {
  }

  lemma OneCall(body: string)
    requires Balanced(body)
    ensures var q := Then("", TO_CHAR, body, End(""));
            && Sound(q) && Print(q) == CallOn(body)
            && PrintTranslated(q) == if Translation(Split(body)).Some? then Translates(FormatOf(body), FirstOf(body)) else CallOn(body)
  {
    hide Translation, Split, Balanced, Replacement, Translates;
    SpellsToChar();
    ToCharIsKeyword();
    PlainLeads("", TO_CHAR, TO_CHAR);
    NothingFirst();
    var c := Call("", TO_CHAR, body, "");
    assert "" + CallOn(body) == CallOn(body) && "" + (Replacement(c) + "") == Replacement(c);
    if Translation(Split(body)).Some? {
      ReplacementOf(c);
    } else {
      StandsAsItIs(c, "");
    }
  }

  lemma NothingFirst()
    ensures FirstCall("", TO_CHAR) == None
  {
  }

  const INNER := "to_char(a,'MM')"

  lemma InnerText()
    ensures CallOn("a" + ("," + SqlStringLiteral("MM"))) == INNER
    ensures "a" + ("," + SqlStringLiteral("MM")) == "a,'MM'"
  {
    NothingToDouble("MM");
  }

  lemma InnerBody()
    ensures Balanced("a,'MM'") && NoCall("a,'MM'", TO_CHAR) && Translation(Split("a,'MM'")).Some?
  {
    hide *;
    InnerText();
    LetterIsArgument();
    PlainArguments("a", "MM");
    PiecesQuiet();
  }

  lemma LetterIsArgument()
    ensures Argument("a") && Tight("a")
  {
    hide Cut, Scan, Stays;
    PlainIsArgument("a");
  }

  lemma PiecesQuiet()
    ensures NoCall("a,'MM'", TO_CHAR) && NoCall(",f", TO_CHAR)
  {
    hide Find;
    NoCallWithout("a,'MM'", TO_CHAR, true);
    NoCallWithout(",f", TO_CHAR, true);
  }

  /** In the rewritten text of TO_CHAR(TO_CHAR(a,'MM'),'DD') the inner call is left, although
      its format is a literal. */
  lemma NestedCallIsLeft()
    ensures Translated("to_char(to_char(a,'MM'),'DD')") == "strftime('%d', to_char(a,'MM'))"
    ensures Literals("strftime('%d', to_char(a,'MM'))", true) == 1
  {
    hide *;
    InnerText();
    InnerBody();
    CallOnIsArgument("a,'MM'");
    OneLiteral("a,'MM'");
    var body := INNER + ("," + SqlStringLiteral("DD"));
    NestedText();
    PlainArguments(INNER, "DD");
    DayFormat();
    OneCall(body);
    TranslatesEachCall(Then("", TO_CHAR, body, End("")));
    TranslatesLiterals("%d", INNER, "");
    QuoteParts("%d", INNER, "");
    WithinClosed("%d", AfterFormat(INNER, ""), true);
    ParenthesisParts(INNER, "");
    WithinClosed(INNER, ")" + "", true);
    QuietNothing();
    assert Translates("%d", INNER) + "" == Translates("%d", INNER);
  }

  lemma NestedText()
    ensures CallOn(INNER + ("," + SqlStringLiteral("DD"))) == "to_char(to_char(a,'MM'),'DD')"
    ensures Translates("%d", INNER) == "strftime('%d', to_char(a,'MM'))"
  {
    hide DoubleQuotes, SqlStringLiteral;
    QuotedDay();
    OuterText();
    StrftimeDay();
  }

  lemma QuotedDay()
    ensures SqlStringLiteral("DD") == "'DD'"
  {
    NothingToDouble("DD");
  }

  lemma OuterText()
    ensures CallOn(INNER + ("," + "'DD'")) == "to_char(to_char(a,'MM'),'DD')"
  {
  }

  lemma StrftimeDay()
    ensures Translates("%d", INNER) == "strftime('%d', to_char(a,'MM'))"
  {
  }

  lemma DayFormat()
    ensures DoubleQuotes(Replace(PG_TO_STRFTIME, "DD")) == "%d"
    ensures Literals("%d", true) == 0 && AllClosed("%d", true)
  {
    hide Replace, DoubleQuotes, Literals, AllClosed, Calls;
    TokenAlone(9);
    NothingToDouble("%d");
    NoStart("%d", true);
    NoneAtAll("%d", true);
  }

  /** In TO_CHAR(TO_CHAR(a,'MM'),f), which stays as it is, the inner call is left as well. */
  lemma SkippedCallIsLeft()
    ensures Translated("to_char(to_char(a,'MM'),f)") == "to_char(to_char(a,'MM'),f)"
    ensures Literals("to_char(to_char(a,'MM'),f)", true) == 1
  {
    hide *;
    InnerText();
    InnerBody();
    CallOnIsArgument("a,'MM'");
    OneLiteral("a,'MM'");
    var body := INNER + ("," + "f");
    SkippedBody();
    SkippedText();
    OneCall(body);
    TranslatesEachCall(Then("", TO_CHAR, body, End("")));
    PiecesQuiet();
    QuietText(",f");
    InnerThenF();
    LiteralsAppend(INNER, ",f", true);
    ParenthesisParts(body, "");
    WithinClosed(body, ")" + "", true);
    SpellsToChar();
    QuietNothing();
    StandingLiterals(TO_CHAR, body, "");
    SkippedCall(body);
  }

  lemma SkippedCall(body: string)
    ensures TO_CHAR + ("(" + (body + (")" + ""))) == CallOn(body)
  {
  }

  lemma InnerThenF()
    ensures Parted(INNER, ",f") && INNER + ("," + "f") == INNER + ",f" && INNER != ""
  {
  }

  lemma SkippedBody()
    ensures var body := INNER + ("," + "f"); Balanced(body) && Translation(Split(body)) == None
  {
    hide Balanced, Split, Argument, Cut, Scan, Stays, CallOn;
    InnerText();
    InnerBody();
    CallOnIsArgument("a,'MM'");
    PlainIsArgument("f");
    ArgumentsSplit([INNER, "f"]);
    assert Join([INNER, "f"], ",") == INNER + ("," + "f");
    TrimTight("f") by {
      assert Tight("f");
    }
  }

  lemma SkippedText()
    ensures CallOn(INNER + ("," + "f")) == "to_char(to_char(a,'MM'),f)"
  {
  }

  // A literal that opens a call stops the rewriter.
  const STOPPED := "'to_char(', to_char(a,'MM')"

  lemma StoppedText()
    ensures STOPPED == "'to_char(', to_char(a,'MM')"
    ensures STOPPED == "'" + (TO_CHAR + ("(" + TAIL)) && STOPPED[1..] == TO_CHAR + ("(" + TAIL)
  {
  }

  lemma StoppedHalves()
    ensures STOPPED == "'to_char('," + (" " + INNER)
  {
  }

  const TAIL := "', to_char(a,'" + ("MM" + ("'" + ")"))

  lemma NeverClosed()
    ensures Reach(TAIL, State(1, false)) == |TAIL|
  {
    hide Reach, DoubleQuotes;
    NothingToDouble(", to_char(a,");
    assert SqlStringLiteral(", to_char(a,") == "', to_char(a,'";
    LiteralRunsOn(", to_char(a,", "MM", ")");
  }

  lemma StoppedAtOnce()
    ensures FirstCall(STOPPED, TO_CHAR) == None
    ensures Match(STOPPED[1..], |TO_CHAR|) < 0 && Head(STOPPED[1..], TO_CHAR) == |TO_CHAR|
  {
    hide Find, Head, Reach, CallHead, Match, FirstCall, NoCall;
    StoppedText();
    SpellsToChar();
    ToCharIsKeyword();
    QuoteIsPlain();
    NeverClosed();
    UnclosedCall("'", TO_CHAR, TAIL, TO_CHAR);
    HeadOfPrinted(TO_CHAR, TAIL, TO_CHAR);
    NeverMatched(TAIL);
    MatchSkips(TO_CHAR, "(" + TAIL);
  }

  lemma QuoteIsPlain()
    ensures NoCall("'", TO_CHAR) && !IsFoldedWord('\'')
  {
    NoCallWithout("'", TO_CHAR, true);
  }

  /** A call that opens inside a literal and is never closed stops the rewriter: in
      'to_char(', TO_CHAR(a,'MM') the second call, which could be translated, is left. */
  lemma UnclosedCallStops()
    ensures Translated("'to_char(', to_char(a,'MM')") == "'to_char(', to_char(a,'MM')"
    ensures Literals("'to_char(', to_char(a,'MM')", true) == 1
  {
    hide *;
    StoppedAtOnce();
    TranslatesEachCall(End(STOPPED));
    StoppedEnds();
    StoppedText();
    StoppedHalves();
    var b := " " + INNER;
    InnerText();
    InnerBody();
    OneLiteral("a,'MM'");
    BlankFirst(INNER);
    StoppedParts();
    WithinAppend("'to_char(',", b, true);
    StoppedWithin();
  }

  lemma StoppedEnds()
    ensures FirstCall(STOPPED, TO_CHAR) == None ==> Sound(End(STOPPED))
    ensures Print(End(STOPPED)) == STOPPED && PrintTranslated(End(STOPPED)) == STOPPED
  {
  }

  lemma StoppedParts()
    ensures Parted("'to_char(',", " " + INNER) && Parted("o_char(',", " " + INNER)
  {
  }

  lemma StoppedWithin()
    ensures Within("'to_char(',", true, " " + INNER) == 0
  {
    hide *;
    var a1, b := "to_char(',", " " + INNER;
    StoppedAtOnce();
    StoppedText();
    StoppedHalves();
    StoppedParts();
    QuoteHasNoHead("'to_char('," + b);
    WithinStep("'", a1, b, true);
    WithinStep("t", "o_char(',", b, true);
    StoppedPieces();
    NotLiteralAt("'to_char('," + b);
    NotLiteralAt(a1 + b);
    NoStartLetters();
    NoneWithin("o_char(',", b, false);
  }

  lemma StoppedPieces()
    ensures "'" + "to_char('," == "'to_char('," && "t" + "o_char('," == "to_char(',"
    ensures "to_char('," + (" " + INNER) == STOPPED[1..] && !IsWord('\'') && IsWord('t')
  {
  }

  lemma NotLiteralAt(s: string)
    requires Head(s, TO_CHAR) < 0 || Match(s, Head(s, TO_CHAR)) < 0
    ensures !LiteralAt(s)
  {
  }

  lemma WithinStep(c: string, a: string, b: string, boundary: bool)
    requires |c| == 1
    ensures Within(c + a, boundary, b) == (if boundary && LiteralAt(c + a + b) then 1 else 0) + Within(a, !IsWord(c[0]), b)
  {
    hide LiteralAt;
    assert (c + a)[1..] == a;
  }

  lemma QuoteHasNoHead(s: string)
    requires s != "" && s[0] == '\''
    ensures Head(s, TO_CHAR) < 0
  {
    assert TO_CHAR[0] == 't';
  }

  lemma NoStartLetters()
    ensures Calls("o_char(',", false) == 0
  {
    hide Calls;
    NoStart("o_char(',", false);
  }
}

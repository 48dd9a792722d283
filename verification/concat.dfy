/** rewriteConcat: PostgreSQL's CONCAT(a, b, ...) becomes (COALESCE(a,'') || COALESCE(b,'') || ...). */
module Concat {
  import opened Text
  import opened Scanner
  import opened CallPattern
  import opened Command

  const CONCAT := "concat"

  lemma ConcatIsKeyword()
    ensures Keyword(CONCAT) && |CONCAT| == 6 && CONCAT[2] == 'n'
  {
  }

  const COALESCE := "COALESCE("
  const OR_EMPTY := ",'')"
  const PIPES := " || "

  function Coalesce(arg: string): string {
    COALESCE + (TrimSpace(arg) + OR_EMPTY)
  }

  function Terms(args: seq<string>): string {
    if args == [] then ""
    else if |args| == 1 then Coalesce(args[0])
    else Coalesce(args[0]) + (PIPES + Terms(args[1..]))
  }

  /** One pass: the leftmost call replaced; None when there is no call or it is not closed. */
  function Pass(q: string): Option<string> {
    match FirstCall(q, CONCAT)
    case None => None
    case Some(c) => Some(Replaced(c))
  }

  function Replaced(c: Call): string {
    c.pre + ("(" + (Terms(Split(c.body)) + (")" + c.post)))
  }

  function Rewritten(q: string): string
    decreases Occurrences(q)
  {
    match Pass(q)
    case None => q
    case Some(next) =>
      PassShrinks(q);
      Rewritten(next)
  }

  method RewriteConcat(query: string) returns (q: string)
    ensures q == Rewritten(query)
    ensures FirstCall(q, CONCAT) == None
  {
    q := query;
    while true
      invariant Rewritten(q) == Rewritten(query)
      decreases Occurrences(q)
    {
      var next := RewriteFirst(q);
      if next == None {
        return;
      }
      PassShrinks(q);
      q := next.value;
    }
  }

  /** The body of the loop: one pass over the text. */
  method RewriteFirst(q: string) returns (r: Option<string>)
    ensures r == Pass(q)
  {
    assert q[0..] == q;
    var p := NextCall(q, 0, CONCAT);
    if p == None {
      return None;
    }
    var s := ReplaceCall(CallAt(q, p.value.start, p.value.open, p.value.end));
    return Some(s);
  }

  method ReplaceCall(c: Call) returns (s: string)
    ensures s == Replaced(c)
  {
    var args := SplitArgs(c.body);
    var b := BuildTerms(args);
    ReplacedIs(c, b);
    return c.pre + b + c.post;
  }

  lemma ReplacedIs(c: Call, b: string)
    requires b == "(" + Terms(Split(c.body)) + ")"
    ensures Replaced(c) == c.pre + b + c.post
  {
  }

  method BuildTerms(args: seq<string>) returns (b: string)
    ensures b == "(" + Terms(args) + ")"
  {
    b := "(";
    for i := 0 to |args|
      invariant "(" + Terms(args) == b + Remaining(args, i)
    {
      ghost var before := b;
      assert args[i..][1..] == args[i + 1..];
      if i > 0 {
        b := b + PIPES;
        Assoc(before, PIPES, Terms(args[i..]));
      }
      Assoc(b, Coalesce(args[i]), Remaining(args, i + 1));
      Assoc(b, COALESCE, TrimSpace(args[i]) + OR_EMPTY);
      Assoc(b + COALESCE, TrimSpace(args[i]), OR_EMPTY);
      b := b + COALESCE;
      b := b + TrimSpace(args[i]);
      b := b + OR_EMPTY;
    }
    assert b + "" == b;
    b := b + ")";
  }

  /** What BuildTerms has still to write before its i-th round. */
  function Remaining(args: seq<string>, i: nat): string
    requires i <= |args|
  {
    if i == 0 then Terms(args) else if i < |args| then PIPES + Terms(args[i..]) else ""
  }

  // --------------------------------------------------------------- termination

  /** How often the word occurs, as a call or not. */
  function Count(s: string, kw: string): nat {
    if s == [] then 0 else (if Spells(s, kw) then 1 else 0) + Count(s[1..], kw)
  }

  function Occurrences(s: string): nat {
    Count(s, CONCAT)
  }

  lemma {:induction false} CountAtLeast(a: string, b: string, kw: string)
    ensures Count(a + b, kw) >= Count(a, kw) + Count(b, kw)
  {
    if a == [] {
      assert a + b == b;
    } else {
      assert (a + b)[1..] == a[1..] + b;
      if Spells(a, kw) {
        SpellsMore(a, b, kw);
      }
      CountAtLeast(a[1..], b, kw);
    }
  }

  /** A character that is no letter keeps the occurrences on its sides apart. */
  predicate Separates(c: char) {
    !IsFoldedWord(c)
  }

  lemma {:induction false} SpellsApart(a: string, c: char, b: string, kw: string)
    requires Separates(c) && Letters(kw)
    ensures Spells(a + ([c] + b), kw) == Spells(a, kw)
  {
    if kw != "" && a != [] {
      assert (a + ([c] + b))[1..] == a[1..] + ([c] + b);
      SpellsApart(a[1..], c, b, kw[1..]);
    }
  }

  lemma {:induction false} CountApart(a: string, c: char, b: string, kw: string)
    requires Separates(c) && Keyword(kw)
    ensures Count(a + ([c] + b), kw) == Count(a, kw) + Count(b, kw)
  {
    var rest := [c] + b;
    SpellsApart(a, c, b, kw);
    if a == [] {
      assert a + rest == rest && rest[1..] == b;
    } else {
      assert (a + rest)[1..] == a[1..] + rest;
      CountApart(a[1..], c, b, kw);
    }
  }

  lemma {:induction false} CountAfterSpace(s: string, t: string, kw: string)
    requires Keyword(kw) && forall i :: 0 <= i < |s| ==> Separates(s[i])
    ensures Count(s + t, kw) == Count(t, kw)
  {
    if s == [] {
      assert s + t == t;
    } else {
      assert s + t == [] + ([s[0]] + (s[1..] + t));
      CountApart([], s[0], s[1..] + t, kw);
      CountAfterSpace(s[1..], t, kw);
    }
  }

  /** A text without one of the letters has no occurrence. */
  lemma {:induction false} CountWithout(s: string, kw: string, at: nat)
    requires Keyword(kw) && at < |kw| && forall i :: 0 <= i < |s| ==> !Folds(s[i], kw[at])
    ensures Count(s, kw) == 0
  {
    if s != [] {
      if Spells(s, kw) {
        SpelledLetters(s, kw, at);
      }
      CountWithout(s[1..], kw, at);
    }
  }

  lemma OccurrencesAtLeast(a: string, b: string)
    ensures Occurrences(a + b) >= Occurrences(a) + Occurrences(b)
  {
    CountAtLeast(a, b, CONCAT);
  }

  lemma OccurrencesApart(a: string, c: char, b: string)
    requires Separates(c)
    ensures Occurrences(a + ([c] + b)) == Occurrences(a) + Occurrences(b)
  {
    ConcatIsKeyword();
    CountApart(a, c, b, CONCAT);
  }

  lemma OccurrencesOfTrimmed(s: string)
    ensures Occurrences(TrimSpace(s)) <= Occurrences(s)
  {
    var lead, trail := TrimSplits(s);
    OccurrencesAtLeast(lead + TrimSpace(s), trail);
    OccurrencesAtLeast(lead, TrimSpace(s));
  }

  lemma OccurrencesOfCoalesce(arg: string)
    ensures Occurrences(Coalesce(arg)) <= Occurrences(arg)
  {
    hide Count, TrimSpace;
    OccurrencesOfTrimmed(arg);
    OccurrencesWithoutN("COALESCE");
    OccurrencesWithoutN("'')");
    OccurrencesBracketed("COALESCE", TrimSpace(arg), "'')");
    assert COALESCE == "COALESCE" + "(" && OR_EMPTY == "," + "'')";
  }

  lemma OccurrencesBracketed(open: string, t: string, close: string)
    requires Occurrences(open) == 0 && Occurrences(close) == 0
    ensures Occurrences((open + "(") + (t + ("," + close))) == Occurrences(t)
  {
    var tail := t + ([','] + close);
    Assoc(open, ['('], tail);
    OccurrencesApart(open, '(', tail);
    OccurrencesApart(t, ',', close);
  }

  lemma OccurrencesWithoutN(s: string)
    requires forall i :: 0 <= i < |s| ==> !Folds(s[i], 'n')
    ensures Occurrences(s) == 0
  {
    ConcatIsKeyword();
    CountWithout(s, CONCAT, 2);
  }

  lemma {:induction false} OccurrencesOfTerms(args: seq<string>)
    ensures Occurrences(Terms(args)) <= Occurrences(Join(args, ","))
  {
    if args != [] {
      OccurrencesOfCoalesce(args[0]);
      if |args| > 1 {
        var rest := Terms(args[1..]);
        Assoc([' '], "|| ", rest);
        assert PIPES == [' '] + "|| ";
        OccurrencesApart(Coalesce(args[0]), ' ', "|| " + rest);
        ConcatIsKeyword();
        CountAfterSpace("|| ", rest, CONCAT);
        OccurrencesOfTerms(args[1..]);
        OccurrencesApart(args[0], ',', Join(args[1..], ","));
      }
    }
  }

  lemma OccurrencesAround(pre: string, head: string, body: string, post: string)
    ensures Occurrences(pre + (head + ("(" + (body + (")" + post))))) >=
            Occurrences(pre) + Occurrences(head) + Occurrences(body) + Occurrences(post)
    ensures Occurrences(pre + ("(" + (body + (")" + post)))) ==
            Occurrences(pre) + Occurrences(body) + Occurrences(post)
  {
    var tail := body + ([')'] + post);
    Assoc(pre, head, ['('] + tail);
    OccurrencesApart(pre + head, '(', tail);
    OccurrencesApart(pre, '(', tail);
    OccurrencesApart(body, ')', post);
    OccurrencesAtLeast(pre, head);
  }

  lemma ReplacedShrinks(c: Call)
    requires CallHead(c.head, CONCAT)
    ensures Occurrences(Replaced(c)) < Occurrences(c.Text())
  {
    OccurrencesAround(c.pre, c.head, c.body, c.post);
    OccurrencesAround(c.pre, c.head, Terms(Split(c.body)), c.post);
    JoinSplit(c.body);
    OccurrencesOfTerms(Split(c.body));
  }

  /** Every pass removes an occurrence of the word, although it may lengthen the text. */
  lemma PassShrinks(q: string)
    requires Pass(q).Some?
    ensures Occurrences(Pass(q).value) < Occurrences(q)
  {
    FirstCallText(q, CONCAT);
    ReplacedShrinks(FirstCall(q, CONCAT).value);
  }

  /** A text is left alone exactly when it has no call or its first call is never closed. */
  lemma {:induction false} FixedPoint(q: string)
    ensures Rewritten(q) == q <==> FirstCall(q, CONCAT) == None
  {
    if Pass(q).Some? {
      PassShrinks(q);
      RewrittenShrinks(Pass(q).value);
    }
  }

  lemma {:induction false} RewrittenShrinks(q: string)
    ensures Occurrences(Rewritten(q)) <= Occurrences(q)
    ensures Pass(Rewritten(q)) == None
    decreases Occurrences(q)
  {
    if Pass(q).Some? {
      PassShrinks(q);
      RewrittenShrinks(Pass(q).value);
    }
  }

  // --------------------------------------------------------------- placeholders

  lemma PlaceholdersOfTrimmed(arg: string)
    ensures Placeholders(TrimSpace(arg)) == Placeholders(arg)
  {
    var lead, trail := TrimSplits(arg);
    var t := TrimSpace(arg);
    assert '$' !in lead && '$' !in trail;
    NoPlaceholders(lead);
    NoPlaceholders(trail);
    assert lead != [] ==> IsSpace(lead[|lead| - 1]);
    assert trail != [] ==> IsSpace(trail[0]);
    PlaceholdersAppend(lead + t, trail);
    PlaceholdersAppend(lead, t);
  }

  /** Text that holds no placeholder and joins none on either side. */
  predicate Neutral(s: string) {
    s != [] && '$' !in s && !IsDigit(s[0]) && !IsDigit(s[|s| - 1])
  }

  lemma PlaceholdersBetween(a: string, s: string, b: string)
    requires Neutral(s)
    ensures Placeholders(a + (s + b)) == Placeholders(a) + Placeholders(b)
  {
    NoPlaceholders(s);
    PlaceholdersAppend(s, b);
    PlaceholdersAppend(a, s + b);
  }

  lemma PlaceholdersOfCoalesce(arg: string)
    ensures Placeholders(Coalesce(arg)) == Placeholders(arg)
  {
    PlaceholdersOfTrimmed(arg);
    var t := TrimSpace(arg);
    assert OR_EMPTY + [] == OR_EMPTY && [] + Coalesce(arg) == Coalesce(arg);
    PlaceholdersBetween(t, OR_EMPTY, []);
    PlaceholdersBetween([], COALESCE, t + OR_EMPTY);
  }

  lemma {:induction false} PlaceholdersOfTerms(args: seq<string>)
    ensures Placeholders(Terms(args)) == Placeholders(Join(args, ","))
  {
    if args != [] {
      PlaceholdersOfCoalesce(args[0]);
      if |args| > 1 {
        PlaceholdersBetween(Coalesce(args[0]), PIPES, Terms(args[1..]));
        PlaceholdersBetween(args[0], ",", Join(args[1..], ","));
        PlaceholdersOfTerms(args[1..]);
      }
    }
  }

  lemma PlaceholdersAround(pre: string, head: string, body: string, post: string)
    requires head == "" || CallHead(head, CONCAT)
    ensures Placeholders(pre + (head + ("(" + (body + (")" + post))))) ==
            Placeholders(pre) + (Placeholders(body) + Placeholders(post))
  {
    if head != "" {
      CallHasNoPlaceholder(head);
    }
    Assoc(head, "(", body + (")" + post));
    PlaceholdersBetween(pre, head + "(", body + (")" + post));
    PlaceholdersBetween(body, ")", post);
  }

  lemma CallHasNoPlaceholder(head: string)
    requires CallHead(head, CONCAT)
    ensures forall i :: 0 <= i < |head| ==> head[i] != '$' && !IsDigit(head[i])
  {
    ConcatIsKeyword();
    forall i | 0 <= i < |head|
      ensures head[i] != '$' && !IsDigit(head[i])
    {
      if i < |CONCAT| {
        SpelledLetters(head, CONCAT, i);
      } else {
        AllBlankAt(head[|CONCAT|..], i - |CONCAT|);
      }
    }
  }

  lemma ReplacedKeepsPlaceholders(c: Call)
    requires CallHead(c.head, CONCAT)
    ensures Placeholders(Replaced(c)) == Placeholders(c.Text())
  {
    var terms := Terms(Split(c.body));
    PlaceholdersAround(c.pre, c.head, c.body, c.post);
    PlaceholdersAround(c.pre, "", terms, c.post);
    assert "" + ("(" + (terms + (")" + c.post))) == "(" + (terms + (")" + c.post));
    JoinSplit(c.body);
    PlaceholdersOfTerms(Split(c.body));
  }

  lemma PassKeepsPlaceholders(q: string)
    requires Pass(q).Some?
    ensures Placeholders(Pass(q).value) == Placeholders(q)
  {
    FirstCallText(q, CONCAT);
    ReplacedKeepsPlaceholders(FirstCall(q, CONCAT).value);
  }

  /** Whatever the query, balanced or not, the rewrite keeps its placeholders in order. */
  lemma {:induction false} PlaceholdersKept(q: string)
    ensures Placeholders(Rewritten(q)) == Placeholders(q)
    ensures CountParams(Rewritten(q)) == CountParams(q)
    decreases Occurrences(q)
  {
    if Pass(q).Some? {
      PassShrinks(q);
      PassKeepsPlaceholders(q);
      PlaceholdersKept(Pass(q).value);
    }
  }

  // ------------------------------------------------------- the text of one pass

  lemma {:induction false} TermsInFull(args: seq<string>)
    ensures Terms(args) == Join(seq(|args|, i requires 0 <= i < |args| => "COALESCE(" + TrimSpace(args[i]) + ",'')"), " || ")
  {
    hide TrimSpace;
    var parts := seq(|args|, i requires 0 <= i < |args| => "COALESCE(" + TrimSpace(args[i]) + ",'')");
    if args != [] {
      var rest := seq(|args| - 1, i requires 0 <= i < |args| - 1 => "COALESCE(" + TrimSpace(args[1..][i]) + ",'')");
      assert parts[1..] == rest;
      TermsInFull(args[1..]);
      Assoc("COALESCE(", TrimSpace(args[0]), ",'')");
      assert parts[0] == Coalesce(args[0]);
    }
  }

  /** One pass in full: the first call gives way to its arguments, each trimmed and made non-NULL by
      COALESCE, joined by the operator || in parentheses; the text around it stays. */
  lemma PassInFull(q: string, c: Call)
    requires FirstCall(q, CONCAT) == Some(c)
    ensures var args := Split(c.body);
            Pass(q) == Some(c.pre + "(" +
                            Join(seq(|args|, i requires 0 <= i < |args| => "COALESCE(" + TrimSpace(args[i]) + ",'')"), " || ") +
                            ")" + c.post)
  {
    hide Split, TrimSpace, Terms, Join, FirstCall;
    var args := Split(c.body);
    TermsInFull(args);
    var b := "(" + Terms(args) + ")";
    ReplacedIs(c, b);
    assert c.pre + b + c.post == c.pre + "(" + Terms(args) + ")" + c.post;
  }

  /** Of two arguments: (COALESCE(a,'') || COALESCE(b,'')). */
  lemma PassOfTwo(q: string, c: Call, a: string, b: string)
    requires FirstCall(q, CONCAT) == Some(c) && Split(c.body) == [a, b]
    ensures Pass(q) == Some(c.pre + "(COALESCE(" + TrimSpace(a) + ",'') || COALESCE(" + TrimSpace(b) + ",''))" + c.post)
  {
    hide Split, TrimSpace, FirstCall;
    var x, y := TrimSpace(a), TrimSpace(b);
    assert [a, b][1..] == [b];
    assert Terms([b]) == Coalesce(b) && Terms([a, b]) == Coalesce(a) + (PIPES + Coalesce(b));
    TwoTerms(c, x, y);
  }

  lemma TwoTerms(c: Call, x: string, y: string)
    ensures c.pre + ("(" + (((COALESCE + (x + OR_EMPTY)) + (PIPES + (COALESCE + (y + OR_EMPTY)))) + (")" + c.post))) ==
            c.pre + "(COALESCE(" + x + ",'') || COALESCE(" + y + ",''))" + c.post
  {
    assert "(" + COALESCE == "(COALESCE(" && OR_EMPTY + (PIPES + COALESCE) == ",'') || COALESCE(" && OR_EMPTY + ")" == ",''))";
    Regroup(c.pre, "(", COALESCE, x, OR_EMPTY, PIPES, y, ")", c.post);
  }

  lemma Regroup(pre: string, l: string, c: string, x: string, e: string, p: string, y: string, r: string, post: string)
    ensures pre + (l + (((c + (x + e)) + (p + (c + (y + e)))) + (r + post))) ==
            pre + (l + c) + x + (e + (p + c)) + y + (e + r) + post
  {
  }
}

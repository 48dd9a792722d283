/** The regular expressions (?i)\bKEYWORD\s*\( that start every textual rewrite. */
module CallPattern {
  import opened Text
  import opened Scanner

  predicate Letters(kw: string) {
    kw == "" || (('a' <= kw[0] <= 'z' || kw[0] == '_') && Letters(kw[1..]))
  }

  /** A lower-case keyword whose first letter has no partner outside ASCII, so that
      the word boundary before it only depends on the character to its left. */
  predicate Keyword(kw: string) {
    kw != [] && kw[0] != 'k' && kw[0] != 's' && Letters(kw)
  }

  /** The text begins with the keyword, in any case. */
  predicate Spells(s: string, kw: string) {
    kw == "" || (s != "" && Folds(s[0], kw[0]) && Spells(s[1..], kw[1..]))
  }

  lemma {:induction false} SpellsLength(s: string, kw: string)
    requires Spells(s, kw)
    ensures |kw| <= |s|
  {
    if kw != "" {
      SpellsLength(s[1..], kw[1..]);
    }
  }

  /** The number of leading blanks. */
  function Blanks(s: string): (n: nat)
    ensures n <= |s|
  {
    if s != [] && IsBlank(s[0]) then 1 + Blanks(s[1..]) else 0
  }

  /** The position of the parenthesis when s begins with a call of kw, else -1. */
  function Head(s: string, kw: string): (r: int)
    ensures r == -1 || (|kw| <= r < |s| && s[r] == '(')
  {
    if !Spells(s, kw) then -1
    else
      SpellsLength(s, kw);
      var k := |kw| + Blanks(s[|kw|..]);
      if k < |s| && s[k] == '(' then k else -1
  }

  /** The position of the leftmost call, |s| when there is none; boundary says
      whether the character before s, if any, is outside \w. */
  function Find(s: string, kw: string, boundary: bool): (k: nat)
    ensures k <= |s|
  {
    if s == [] || (boundary && Head(s, kw) >= 0) then 0 else 1 + Find(s[1..], kw, !IsWord(s[0]))
  }

  lemma {:induction false} FoundIsCall(s: string, kw: string, boundary: bool)
    requires Find(s, kw, boundary) < |s|
    ensures Head(s[Find(s, kw, boundary)..], kw) >= 0
  {
    var k := Find(s, kw, boundary);
    if k == 0 {
      assert s[0..] == s;
    } else {
      FoundIsCall(s[1..], kw, !IsWord(s[0]));
      assert s[1..][k - 1..] == s[k..];
    }
  }

  /** No call of kw anywhere in s. */
  predicate NoCall(s: string, kw: string) {
    Find(s, kw, true) == |s|
  }

  /** Text without the first letter of the keyword holds no call. */
  lemma {:induction false} NoCallWithout(s: string, kw: string, boundary: bool)
    requires kw != "" && forall i :: 0 <= i < |s| ==> !Folds(s[i], kw[0])
    ensures Find(s, kw, boundary) == |s|
  {
    if s != [] {
      NoCallWithout(s[1..], kw, !IsWord(s[0]));
    }
  }

  /** The head of a call up to its parenthesis, in any case and with any blanks. */
  predicate CallHead(head: string, kw: string) {
    |kw| <= |head| && Spells(head, kw) && AllBlank(head[|kw|..])
  }

  lemma {:induction false} SpellsMore(s: string, t: string, kw: string)
    requires Spells(s, kw)
    ensures Spells(s + t, kw)
  {
    if kw != "" {
      assert (s + t)[1..] == s[1..] + t;
      SpellsMore(s[1..], t, kw[1..]);
    }
  }

  lemma {:induction false} SpellsFront(s: string, n: nat, kw: string)
    requires Spells(s, kw) && |kw| <= n <= |s|
    ensures Spells(s[..n], kw)
  {
    if kw != "" {
      assert s[..n][1..] == s[1..][..n - 1];
      SpellsFront(s[1..], n - 1, kw[1..]);
    }
  }

  lemma {:induction false} BlanksFront(s: string)
    ensures AllBlank(s[..Blanks(s)])
  {
    if s != [] && IsBlank(s[0]) {
      assert s[..Blanks(s)][1..] == s[1..][..Blanks(s) - 1];
      BlanksFront(s[1..]);
    }
  }

  lemma HeadOfPrinted(head: string, rest: string, kw: string)
    requires Keyword(kw) && CallHead(head, kw)
    ensures Head(head + ("(" + rest), kw) == |head|
  {
    assert (head + ("(" + rest))[|kw|..] == head[|kw|..] + ("(" + rest);
    SpellsMore(head, "(" + rest, kw);
    BlanksOfPrinted(head[|kw|..], "(" + rest);
  }

  lemma HeadIsCallHead(t: string, kw: string)
    requires Head(t, kw) >= 0
    ensures CallHead(t[..Head(t, kw)], kw)
  {
    var r := Head(t, kw);
    SpellsFront(t, r, kw);
    BlanksFront(t[|kw|..]);
    assert t[..r][|kw|..] == t[|kw|..][..r - |kw|];
  }

  lemma {:induction false} BlanksOfPrinted(gap: string, rest: string)
    requires AllBlank(gap) && (rest == [] || !IsBlank(rest[0]))
    ensures Blanks(gap + rest) == |gap|
  {
    if gap == [] {
      assert gap + rest == rest;
    } else {
      assert (gap + rest)[1..] == gap[1..] + rest;
      BlanksOfPrinted(gap[1..], rest);
    }
  }

  // ------------------------------------------------------- searching in pieces

  /** No call can begin in a and end in b. */
  predicate Seam(a: string, b: string) {
    a == [] || (!IsFoldedWord(a[|a| - 1]) && (IsBlank(a[|a| - 1]) ==> b == [] || (b[0] != '(' && !IsBlank(b[0]))))
  }

  lemma {:induction false} SpellsAppend(a: string, b: string, kw: string)
    requires Letters(kw) && a != [] && !IsFoldedWord(a[|a| - 1])
    ensures Spells(a + b, kw) == Spells(a, kw)
  {
    if kw != "" && |a| > 1 {
      assert (a + b)[1..] == a[1..] + b;
      SpellsAppend(a[1..], b, kw[1..]);
    }
  }

  /** A spelled keyword of just the length of the text ends it in a letter. */
  lemma {:induction false} SpellsLast(s: string, kw: string)
    requires Letters(kw) && kw != "" && Spells(s, kw) && |s| == |kw|
    ensures IsFoldedWord(s[|s| - 1])
  {
    if |kw| > 1 {
      SpellsLast(s[1..], kw[1..]);
    }
  }

  lemma {:induction false} BlanksLast(s: string)
    requires s != [] && Blanks(s) == |s|
    ensures IsBlank(s[|s| - 1])
  {
    if |s| > 1 {
      BlanksLast(s[1..]);
    }
  }

  lemma {:induction false} BlanksStart(s: string)
    ensures s == [] || !IsBlank(s[0]) ==> Blanks(s) == 0
  {
  }

  lemma {:induction false} BlanksAppend(a: string, b: string)
    ensures Blanks(a + b) == if Blanks(a) < |a| then Blanks(a) else |a| + Blanks(b)
  {
    if a == [] {
      assert a + b == b;
    } else if IsBlank(a[0]) {
      assert (a + b)[1..] == a[1..] + b;
      BlanksAppend(a[1..], b);
    }
  }

  lemma HeadMore(a: string, b: string, kw: string)
    requires Head(a, kw) >= 0
    ensures Head(a + b, kw) == Head(a, kw)
  {
    SpellsMore(a, b, kw);
    SpellsLength(a, kw);
    assert (a + b)[|kw|..] == a[|kw|..] + b;
    BlanksAppend(a[|kw|..], b);
  }

  /** A text in whose first part no call begins has none there. */
  lemma {:induction false} NoCallPrefix(a: string, b: string, kw: string, boundary: bool)
    requires Find(a + b, kw, boundary) >= |a|
    ensures Find(a, kw, boundary) == |a|
    decreases |a|
  {
    hide Head;
    if a != [] {
      assert (a + b)[1..] == a[1..] + b;
      if Head(a, kw) >= 0 {
        HeadMore(a, b, kw);
      }
      NoCallPrefix(a[1..], b, kw, !IsWord(a[0]));
    }
  }

  /** A call is found only at a word boundary. */
  lemma {:induction false} FoundAtBoundary(s: string, kw: string, boundary: bool)
    requires Find(s, kw, boundary) < |s|
    ensures var k := Find(s, kw, boundary); if k == 0 then boundary else !IsWord(s[k - 1])
  {
    hide Head;
    var k := Find(s, kw, boundary);
    if k > 0 {
      FoundAtBoundary(s[1..], kw, !IsWord(s[0]));
      assert k > 1 ==> s[1..][k - 2] == s[k - 1];
    }
  }

  /** A call can be read at position i: its head stands there, at a word boundary. */
  predicate CallBegins(s: string, kw: string, boundary: bool, i: nat)
    requires i <= |s|
  {
    Head(s[i..], kw) >= 0 && if i == 0 then boundary else !IsWord(s[i - 1])
  }

  /** The search finds the first position at which a call can be read, and fails exactly when there is none. */
  lemma {:induction false} FindMeaning(s: string, kw: string, boundary: bool)
    requires kw != ""
    ensures var k := Find(s, kw, boundary);
            && (forall i :: 0 <= i < k ==> !CallBegins(s, kw, boundary, i))
            && (k < |s| ==> CallBegins(s, kw, boundary, k))
  {
    hide Head;
    assert s[0..] == s;
    if s != [] && !(boundary && Head(s, kw) >= 0) {
      var t, after := s[1..], !IsWord(s[0]);
      FindMeaning(t, kw, after);
      forall i | 0 < i <= |s|
        ensures CallBegins(s, kw, boundary, i) == CallBegins(t, kw, after, i - 1)
      {
        assert s[i..] == t[i - 1..];
      }
    }
  }

  lemma HeadAppend(a: string, b: string, kw: string)
    requires Keyword(kw) && a != [] && Seam(a, b)
    ensures Head(a + b, kw) == Head(a, kw)
  {
    SpellsAppend(a, b, kw);
    if Spells(a, kw) {
      SpellsLength(a, kw);
      var t := a[|kw|..];
      assert (a + b)[|kw|..] == t + b;
      BlanksAppend(t, b);
      if Blanks(t) == |t| {
        if t == [] {
          SpellsLast(a, kw);
        } else {
          BlanksLast(t);
        }
      }
    }
  }

  lemma {:induction false} FindAppend(a: string, b: string, kw: string, boundary: bool)
    requires Keyword(kw) && Seam(a, b)
    ensures Find(a + b, kw, boundary) ==
            if Find(a, kw, boundary) < |a| then Find(a, kw, boundary)
            else |a| + Find(b, kw, a != [] || boundary)
    decreases |a|
  {
    if a == [] {
      assert a + b == b;
    } else {
      HeadAppend(a, b, kw);
      assert (a + b)[1..] == a[1..] + b;
      if !(boundary && Head(a, kw) >= 0) {
        FindAppend(a[1..], b, kw, !IsWord(a[0]));
      }
    }
  }

  /** Text without a call, ending outside a word, leads straight to the next call. */
  lemma FindPrinted(a: string, head: string, rest: string, kw: string)
    requires Keyword(kw) && NoCall(a, kw) && (a == [] || !IsFoldedWord(a[|a| - 1]))
    requires CallHead(head, kw)
    ensures var s := a + (head + ("(" + rest));
            Find(s, kw, true) == |a| && Head(s[|a|..], kw) == |head|
  {
    var b := head + ("(" + rest);
    assert Folds(head[0], kw[0]) && b[0] == head[0];
    HeadOfPrinted(head, rest, kw);
    FindAppend(a, b, kw, true);
    Front(a, b);
  }

  // ------------------------------------------------------------ calls with their end

  /** A text set out around a call: head is the keyword with the blanks after it. */
  datatype Call = Call(pre: string, head: string, body: string, post: string) {
    function Text(): string {
      pre + (head + ("(" + (body + (")" + post))))
    }

    function Open(): nat {
      |pre| + |head|
    }

    function End(): nat {
      Open() + 1 + |body|
    }
  }

  function CallAt(q: string, start: nat, open: nat, end: nat): Call
    requires start <= open < end < |q|
  {
    Call(q[..start], q[start..open], q[open + 1..end], q[end + 1..])
  }

  lemma CallAtText(q: string, i: nat, j: nat, k: nat)
    requires i <= j < k < |q| && q[j] == '(' && q[k] == ')'
    ensures CallAt(q, i, j, k).Text() == q
  {
  }

  /** Where a call stands in a text. */
  datatype Place = Place(start: int, open: int, end: int)

  /** The leftmost call, None when there is none or its parenthesis is never closed. */
  function Locate(q: string, kw: string): Option<Place> {
    var start := Find(q, kw, true);
    if start == |q| then None
    else
      FoundIsCall(q, kw, true);
      var open := start + Head(q[start..], kw);
      if Match(q, open) < 0 then None else Some(Place(start, open, Match(q, open)))
  }

  lemma PlaceInText(q: string, kw: string)
    requires Locate(q, kw).Some?
    ensures var p := Locate(q, kw).value;
            && 0 <= p.start <= p.open < p.end < |q| && q[p.open] == '(' && q[p.end] == ')'
            && Head(q[p.start..], kw) == p.open - p.start && Match(q, p.open) == p.end
  {
    FoundIsCall(q, kw, true);
    ClosesAtMatch(q, Locate(q, kw).value.open);
  }

  function FirstCall(q: string, kw: string): Option<Call> {
    match Locate(q, kw)
    case None => None
    case Some(p) =>
      PlaceInText(q, kw);
      Some(CallAt(q, p.start, p.open, p.end))
  }

  /** The call and what stands around it make up the text. */
  lemma FirstCallText(q: string, kw: string)
    requires FirstCall(q, kw).Some?
    ensures FirstCall(q, kw).value.Text() == q && CallHead(FirstCall(q, kw).value.head, kw)
  {
    hide Find, Head, Match;
    var p := Locate(q, kw).value;
    PlaceInText(q, kw);
    CallAtText(q, p.start, p.open, p.end);
    HeadAt(q, p.start, kw);
  }

  lemma HeadAt(q: string, start: nat, kw: string)
    requires start <= |q| && Head(q[start..], kw) >= 0
    ensures CallHead(q[start..start + Head(q[start..], kw)], kw)
  {
    var n := Head(q[start..], kw);
    HeadIsCallHead(q[start..], kw);
    assert q[start..][..n] == q[start..start + n];
  }

  lemma ClosesAtMatch(q: string, open: nat)
    requires open < |q| && q[open] == '(' && Match(q, open) >= 0
    ensures open < Match(q, open) && q[Match(q, open)] == ')'
  {
    ReachIsFirst(q[open..], START);
  }

  lemma {:induction false} SpelledLetters(s: string, kw: string, i: nat)
    requires Spells(s, kw) && Letters(kw) && i < |kw|
    ensures i < |s| && Folds(s[i], kw[i]) && ('a' <= kw[i] <= 'z' || kw[i] == '_')
  {
    if i > 0 {
      SpelledLetters(s[1..], kw[1..], i - 1);
    }
  }

  lemma {:induction false} AllBlankAt(s: string, i: nat)
    requires AllBlank(s) && i < |s|
    ensures IsBlank(s[i])
  {
    if i > 0 {
      AllBlankAt(s[1..], i - 1);
    }
  }

  /** A printed call is found with exactly its own text, whatever surrounds it. */
  lemma FirstPrintedCall(c: Call, kw: string)
    requires Keyword(kw) && NoCall(c.pre, kw) && (c.pre == [] || !IsFoldedWord(c.pre[|c.pre| - 1]))
    requires CallHead(c.head, kw) && Balanced(c.body)
    ensures FirstCall(c.Text(), kw) == Some(c)
  {
    hide Find, Head, Match, Balanced, CallHead, NoCall, IsFoldedWord;
    PrintedCallAt(c, kw);
    LocatedAt(c.Text(), kw, |c.pre|, c.Open(), c.End());
    SlicesOfText(c);
  }

  lemma LocatedAt(q: string, kw: string, start: nat, open: nat, end: nat)
    requires Find(q, kw, true) == start < |q| && Head(q[start..], kw) == open - start
    requires open <= |q| && Match(q, open) == end
    ensures Locate(q, kw) == Some(Place(start, open, end))
  {
    hide Find, Head, Match;
  }

  lemma PrintedCallAt(c: Call, kw: string)
    requires Keyword(kw) && NoCall(c.pre, kw) && (c.pre == [] || !IsFoldedWord(c.pre[|c.pre| - 1]))
    requires CallHead(c.head, kw) && Balanced(c.body)
    ensures Find(c.Text(), kw, true) == |c.pre| < |c.Text()|
    ensures Head(c.Text()[|c.pre|..], kw) == |c.head| && Match(c.Text(), c.Open()) == c.End()
  {
    FindPrinted(c.pre, c.head, c.body + (")" + c.post), kw);
    MatchInText(c);
  }

  /** No call can be read in the text before, head included, but the one with this head. */
  predicate Leads(text: string, head: string, kw: string) {
    CallHead(head, kw) && Find(text + (head + "("), kw, true) == |text|
  }

  lemma LeadsOn(text: string, head: string, more: string, kw: string)
    requires Keyword(kw) && Leads(text, head, kw)
    ensures Find(text + (head + ("(" + more)), kw, true) == |text|
  {
    hide Find, CallHead;
    var t := text + (head + "(");
    Assoc(head, "(", more);
    Assoc(text, head + "(", more);
    assert t[|t| - 1] == '(';
    FindAppend(t, more, kw, true);
  }

  /** Text without a call, ending outside a word, leads to any call. */
  lemma PlainLeads(text: string, head: string, kw: string)
    requires Keyword(kw) && NoCall(text, kw) && (text == [] || !IsFoldedWord(text[|text| - 1])) && CallHead(head, kw)
    ensures Leads(text, head, kw)
  {
    hide Find, CallHead;
    FindPrinted(text, head, "", kw);
    assert "(" + "" == "(";
  }

  /** A printed call is found with exactly its own text exactly when it is the first that can be read. */
  lemma LeadingCall(c: Call, kw: string)
    requires Keyword(kw) && Leads(c.pre, c.head, kw) && Balanced(c.body)
    ensures FirstCall(c.Text(), kw) == Some(c)
  {
    hide Find, Head, Match, Balanced, CallHead;
    var rest := c.body + (")" + c.post);
    LeadsOn(c.pre, c.head, rest, kw);
    HeadOfPrinted(c.head, rest, kw);
    Front(c.pre, c.head + ("(" + rest));
    MatchInText(c);
    LocatedAt(c.Text(), kw, |c.pre|, c.Open(), c.End());
    SlicesOfText(c);
  }

  /** A first call whose parenthesis is never closed. */
  lemma UnclosedCall(pre: string, head: string, tail: string, kw: string)
    requires Keyword(kw) && NoCall(pre, kw) && (pre == [] || !IsFoldedWord(pre[|pre| - 1])) && CallHead(head, kw)
    requires Reach(tail, State(1, false)) == |tail|
    ensures FirstCall(pre + (head + ("(" + tail)), kw) == None
  {
    hide Find, Head, Match, Reach, CallHead, NoCall, FirstCall, IsFoldedWord;
    var q := pre + (head + ("(" + tail));
    FindPrinted(pre, head, tail, kw);
    NeverMatched(tail);
    Assoc(pre, head, "(" + tail);
    MatchSkips(pre + head, "(" + tail);
    NotLocated(q, kw, |pre|, |pre + head|);
  }

  lemma NotLocated(q: string, kw: string, start: nat, open: nat)
    requires Find(q, kw, true) == start < |q| && Head(q[start..], kw) == open - start
    requires open <= |q| && Match(q, open) < 0
    ensures FirstCall(q, kw) == None
  {
    hide Find, Head, Match;
  }

  /** Every first call leads, and its body is balanced. */
  lemma FirstCallLeads(q: string, kw: string)
    requires Keyword(kw) && FirstCall(q, kw).Some?
    ensures var c := FirstCall(q, kw).value; c.Text() == q && Leads(c.pre, c.head, kw) && Balanced(c.body)
  {
    hide Find, Head, Match, Balanced, CallHead;
    var c := FirstCall(q, kw).value;
    FirstCallText(q, kw);
    PlaceInText(q, kw);
    var p := Locate(q, kw).value;
    EnclosedIsBalanced(q, p.open);
    var t, rest := c.pre + (c.head + "("), c.body + (")" + c.post);
    Assoc(c.head, "(", rest);
    Assoc(c.pre, c.head + "(", rest);
    assert t[|t| - 1] == '(' && t + rest == q;
    FindAppend(t, rest, kw, true);
  }

  lemma MatchInText(c: Call)
    requires Balanced(c.body)
    ensures Match(c.Text(), c.Open()) == c.End()
  {
    var call := "(" + (c.body + (")" + c.post));
    Assoc(c.pre, c.head, call);
    MatchesBody(c.body, c.post);
    MatchSkips(c.pre + c.head, call);
  }

  lemma SlicesOfText(c: Call)
    ensures CallAt(c.Text(), |c.pre|, c.Open(), c.End()) == c
  {
  }

  lemma MatchInSuffix(q: string, from: nat, open: nat)
    requires from <= open <= |q|
    ensures Match(q, open) == if Match(q[from..], open - from) < 0 then -1 else from + Match(q[from..], open - from)
  {
  }

  /** The place of the leftmost call of the text from a position on. */
  predicate FoundAfter(q: string, from: nat, kw: string, p: Place) {
    from <= p.start <= p.open < p.end < |q| &&
    Locate(q[from..], kw) == Some(Place(p.start - from, p.open - from, p.end - from))
  }

  /** Where the leftmost call after a position stands: the search and the matchParen
      with which the rewriters begin each round. */
  method NextCall(q: string, from: nat, kw: string) returns (p: Option<Place>)
    requires from <= |q|
    ensures p.None? <==> Locate(q[from..], kw) == None
    ensures p.Some? ==> FoundAfter(q, from, kw, p.value)
  {
    hide Find, Head, Match, Reach;
    var rel := Find(q[from..], kw, true);
    if rel == |q| - from {
      return None;
    }
    FoundIsCall(q[from..], kw, true);
    Drop(q, from, rel);
    var start := from + rel;
    var open := start + Head(q[start..], kw);
    var end := MatchParen(q, open);
    MatchInSuffix(q, from, open);
    if end < 0 {
      return None;
    }
    PlaceInText(q[from..], kw);
    return Some(Place(start, open, end));
  }

  /** The slices a rewriter takes are the parts of the call. */
  lemma CallInSuffix(q: string, from: nat, kw: string, p: Place)
    requires FoundAfter(q, from, kw, p)
    ensures FirstCall(q[from..], kw) ==
            Some(Call(q[from..p.start], q[p.start..p.open], q[p.open + 1..p.end], q[p.end + 1..]))
  {
    hide Locate, Find, Head, Match;
    SlicesInSuffix(q, from, p.start, p.open, p.end);
  }

  lemma SlicesInSuffix(q: string, from: nat, start: nat, open: nat, end: nat)
    requires from <= start <= open < end < |q|
    ensures CallAt(q[from..], start - from, open - from, end - from) ==
            Call(q[from..start], q[start..open], q[open + 1..end], q[end + 1..])
  {
  }
}

/** The quote-aware scanner: matching parentheses and splitting argument lists.
    The reference semantics lets every quote toggle the state; the loops of the
    program look ahead for doubled quotes instead. */
module Scanner {
  import opened Text

  datatype State = State(depth: int, quoted: bool)

  const START := State(0, false)

  function Next(st: State, c: char): State {
    if c == '\'' then st.(quoted := !st.quoted)
    else if st.quoted then st
    else if c == '(' then st.(depth := st.depth + 1)
    else if c == ')' then st.(depth := st.depth - 1)
    else st
  }

  /** The state after reading all of s. */
  function Scan(st: State, s: string): State
    decreases |s|
  {
    if s == [] then st else Scan(Next(st, s[0]), s[1..])
  }

  /** Whether reading c closes the outermost parenthesis. */
  predicate Closes(st: State, c: char) {
    !st.quoted && c == ')' && st.depth == 1
  }

  /** The position of the first closing parenthesis, |s| when there is none. */
  function Reach(s: string, st: State): (k: nat)
    ensures k <= |s|
    decreases |s|
  {
    if s == [] || Closes(st, s[0]) then 0 else 1 + Reach(s[1..], Next(st, s[0]))
  }

  /** The result of matchParen: the partner of the parenthesis at open, or -1. */
  function Match(s: string, open: nat): (r: int)
    requires open <= |s|
    ensures r == -1 || open <= r < |s|
  {
    var k := Reach(s[open..], START);
    if open + k == |s| then -1 else open + k
  }

  /** The position of the first top-level comma, |s| when there is none. */
  function Cut(s: string, st: State): (k: nat)
    ensures k <= |s|
    decreases |s|
  {
    if s == [] || (s[0] == ',' && st == START) then 0 else 1 + Cut(s[1..], Next(st, s[0]))
  }

  /** The argument list, cut at every top-level comma. */
  function Split(s: string): seq<string>
    decreases |s|
  {
    var k := Cut(s, START);
    if k == |s| then [s] else [s[..k]] + Split(s[k + 1..])
  }

  // ---------------------------------------------------------------- the loops

  method MatchParen(s: string, open: nat) returns (r: int)
    requires open <= |s|
    ensures r == Match(s, open)
  {
    var depth, inStr := 0, false;
    var i := open;
    while i < |s|
      invariant open <= i <= |s|
      invariant open + Reach(s[open..], START) == i + Reach(s[i..], State(depth, inStr))
    {
      var c := s[i];
      assert s[i..][1..] == s[i + 1..];
      if inStr {
        if c == '\'' {
          if i + 1 < |s| && s[i + 1] == '\'' {
            assert s[i + 1..][1..] == s[i + 2..];
            i := i + 2;
            continue;
          }
          inStr := false;
        }
        i := i + 1;
        continue;
      }
      match c {
        case '\'' => inStr := true;
        case '(' => depth := depth + 1;
        case ')' =>
          depth := depth - 1;
          if depth == 0 {
            return i;
          }
        case _ =>
      }
      i := i + 1;
    }
    return -1;
  }

  lemma CutStep(s: string, i: nat, st: State)
    requires i <= |s|
    ensures Cut(s[i..], st) == if i == |s| || (s[i] == ',' && st == START) then 0 else 1 + Cut(s[i + 1..], Next(st, s[i]))
  {
  }

  lemma SplitStep(s: string, start: nat, i: nat)
    requires start <= i <= |s| && start + Cut(s[start..], START) == i
    ensures Split(s[start..]) == [s[start..i]] + if i == |s| then [] else Split(s[i + 1..])
  {
    if i == |s| {
      assert s[start..i] == s[start..];
    }
    assert s[start..][..i - start] == s[start..i];
    assert i < |s| ==> s[start..][i - start + 1..] == s[i + 1..];
  }

  method SplitArgs(s: string) returns (args: seq<string>)
    ensures args == Split(s)
  {
    hide Split, Cut;
    args := [];
    assert s[0..] == s;
    var depth, inStr, start := 0, false, 0;
    var i := 0;
    while i < |s|
      invariant 0 <= start <= i <= |s|
      invariant Split(s) == args + Split(s[start..])
      invariant start + Cut(s[start..], START) == i + Cut(s[i..], State(depth, inStr))
    {
      var c := s[i];
      CutStep(s, i, State(depth, inStr));
      if inStr {
        if c == '\'' {
          if i + 1 < |s| && s[i + 1] == '\'' {
            CutStep(s, i + 1, State(depth, false));
            i := i + 2;
            continue;
          }
          inStr := false;
        }
        i := i + 1;
        continue;
      }
      match c {
        case '\'' => inStr := true;
        case '(' => depth := depth + 1;
        case ')' => depth := depth - 1;
        case ',' =>
          if depth == 0 {
            SplitStep(s, start, i);
            args := args + [s[start..i]];
            start := i + 1;
          }
        case _ =>
      }
      i := i + 1;
    }
    CutStep(s, |s|, State(depth, inStr));
    SplitStep(s, start, |s|);
    assert s[start..|s|] == s[start..];
    return args + [s[start..]];
  }

  // ------------------------------------------------------- scanning in pieces

  lemma {:induction false} ScanAppend(st: State, a: string, b: string)
    ensures Scan(st, a + b) == Scan(Scan(st, a), b)
    decreases |a|
  {
    if a == [] {
      assert a + b == b;
    } else {
      assert (a + b)[1..] == a[1..] + b;
      ScanAppend(Next(st, a[0]), a[1..], b);
    }
  }

  lemma {:induction false} ReachAppend(st: State, a: string, b: string)
    ensures Reach(a + b, st) == if Reach(a, st) < |a| then Reach(a, st) else |a| + Reach(b, Scan(st, a))
    decreases |a|
  {
    if a == [] {
      assert a + b == b;
    } else if !Closes(st, a[0]) {
      assert (a + b)[1..] == a[1..] + b;
      ReachAppend(Next(st, a[0]), a[1..], b);
    }
  }

  lemma {:induction false} CutAppend(st: State, a: string, b: string)
    ensures Cut(a + b, st) == if Cut(a, st) < |a| then Cut(a, st) else |a| + Cut(b, Scan(st, a))
    decreases |a|
  {
    if a == [] {
      assert a + b == b;
    } else if !(a[0] == ',' && st == START) {
      assert (a + b)[1..] == a[1..] + b;
      CutAppend(Next(st, a[0]), a[1..], b);
    }
  }

  // ---------------------------------------------------- meaning of the results

  /** matchParen stops at the first closing parenthesis outside quotes at which the
      nesting depth falls to zero, and fails exactly when there is none. */
  lemma {:induction false} ReachIsFirst(s: string, st: State)
    ensures var k := Reach(s, st);
            && (forall j :: 0 <= j < k ==> !Closes(Scan(st, s[..j]), s[j]))
            && (k < |s| ==> Closes(Scan(st, s[..k]), s[k]))
    decreases |s|
  {
    if s != [] && !Closes(st, s[0]) {
      ReachIsFirst(s[1..], Next(st, s[0]));
      forall j | 0 < j <= |s|
        ensures Scan(st, s[..j]) == Scan(Next(st, s[0]), s[1..][..j - 1])
      {
        assert s[..j][1..] == s[1..][..j - 1];
      }
      assert forall j :: 0 < j < |s| ==> s[j] == s[1..][j - 1];
    }
  }

  lemma MatchMeaning(s: string, open: nat)
    requires open <= |s|
    ensures var r := Match(s, open);
            && (r == -1 <==> forall j :: open <= j < |s| ==> !Closes(Scan(START, s[open..j]), s[j]))
            && (r != -1 ==> Closes(Scan(START, s[open..r]), s[r]))
            && (r != -1 ==> forall j :: open <= j < r ==> !Closes(Scan(START, s[open..j]), s[j]))
  {
    var t := s[open..];
    ReachIsFirst(t, START);
    forall j | open <= j < |s|
      ensures s[open..j] == t[..j - open] && s[j] == t[j - open]
    {
    }
  }

  /** No prefix of s closes more than s has opened. */
  predicate Stays(s: string, st: State)
    decreases |s|
  {
    st.depth >= 0 && (s == [] || Stays(s[1..], Next(st, s[0])))
  }

  /** Every parenthesis and every quote opened in s is closed in s. */
  predicate Balanced(s: string) {
    Scan(START, s) == START && Stays(s, START)
  }

  /** One argument: balanced and without a top-level comma. */
  predicate Argument(s: string) {
    Balanced(s) && Cut(s, START) == |s|
  }

  lemma {:induction false} ScanShift(s: string, st: State, up: int)
    ensures Scan(st.(depth := st.depth + up), s) == Scan(st, s).(depth := Scan(st, s).depth + up)
    decreases |s|
  {
    if s != [] {
      ScanShift(s[1..], Next(st, s[0]), up);
    }
  }

  /** Balanced text never closes a parenthesis opened before it. */
  lemma {:induction false} StaysInside(s: string, st: State)
    requires Stays(s, st)
    ensures Reach(s, st.(depth := st.depth + 1)) == |s|
    ensures Cut(s, st.(depth := st.depth + 1)) == |s|
    decreases |s|
  {
    if s != [] {
      StaysInside(s[1..], Next(st, s[0]));
    }
  }

  lemma {:induction false} StaysUp(s: string, st: State, up: nat)
    requires Stays(s, st)
    ensures Stays(s, st.(depth := st.depth + up))
    decreases |s|
  {
    if s != [] {
      StaysUp(s[1..], Next(st, s[0]), up);
    }
  }

  lemma {:induction false} StaysAppend(a: string, b: string, st: State)
    ensures Stays(a + b, st) <==> Stays(a, st) && Stays(b, Scan(st, a))
    decreases |a|
  {
    if a == [] {
      assert a + b == b;
      StaysStarts(b, st);
    } else {
      assert (a + b)[1..] == a[1..] + b;
      StaysAppend(a[1..], b, Next(st, a[0]));
    }
  }

  lemma StaysStarts(s: string, st: State)
    ensures Stays(s, st) ==> st.depth >= 0
  {
  }

  /** Up to the closing parenthesis the depth stays at one or more. */
  lemma {:induction false} ReachStays(s: string, st: State)
    requires st.depth >= 1
    ensures Stays(s[..Reach(s, st)], st.(depth := st.depth - 1))
    decreases |s|
  {
    var k := Reach(s, st);
    if k > 0 {
      assert s[..k][1..] == s[1..][..k - 1];
      ReachStays(s[1..], Next(st, s[0]));
    }
  }

  /** The text matchParen encloses is balanced. */
  lemma EnclosedIsBalanced(s: string, open: nat)
    requires open < |s| && s[open] == '(' && Match(s, open) != -1
    ensures open < Match(s, open) && Balanced(s[open + 1..Match(s, open)])
  {
    var t := s[open + 1..];
    assert s[open..][1..] == t;
    var k := Reach(t, State(1, false));
    assert Match(s, open) == open + 1 + k;
    assert s[open + 1..open + 1 + k] == t[..k];
    ReachIsFirst(t, State(1, false));
    ReachStays(t, State(1, false));
    ScanShift(t[..k], START, 1);
  }

  /** A balanced body is found again between its parentheses, whatever follows. */
  lemma MatchesBody(body: string, rest: string)
    requires Balanced(body)
    ensures Match("(" + (body + (")" + rest)), 0) == 1 + |body|
  {
    var s := "(" + (body + (")" + rest));
    assert s[0..] == s && s[1..] == body + (")" + rest);
    StaysInside(body, START);
    ScanShift(body, START, 1);
    ReachAppend(State(1, false), body, ")" + rest);
  }

  lemma {:induction false} InsideQuotes(t: string, st: State)
    requires '\'' !in t && st.quoted
    ensures Reach(t, st) == |t|
    decreases |t|
  {
    if t != "" {
      InsideQuotes(t[1..], st);
    }
  }

  /** From a quote on without another one nothing is closed. */
  lemma QuoteRunsOn(t: string, st: State)
    requires '\'' !in t && !st.quoted
    ensures Reach("'" + t, st) == 1 + |t|
  {
    var s := "'" + t;
    assert s[1..] == t;
    InsideQuotes(t, Next(st, '\''));
  }

  lemma NeverMatched(tail: string)
    requires Reach(tail, State(1, false)) == |tail|
    ensures Match("(" + tail, 0) == -1
  {
    assert ("(" + tail)[0..] == "(" + tail && ("(" + tail)[1..] == tail;
  }

  lemma MatchSkips(a: string, b: string)
    ensures Match(a + b, |a|) == if Match(b, 0) == -1 then -1 else |a| + Match(b, 0)
  {
  }

  // ------------------------------------------------------ splitting and joining

  lemma {:induction false} CutIsTopLevel(s: string, st: State)
    ensures Cut(s, st) < |s| ==> s[Cut(s, st)] == ',' && Scan(st, s[..Cut(s, st)]) == START
    ensures Cut(s[..Cut(s, st)], st) == Cut(s, st)
    decreases |s|
  {
    var k := Cut(s, st);
    if k > 0 {
      CutIsTopLevel(s[1..], Next(st, s[0]));
      assert s[..k][1..] == s[1..][..k - 1];
    }
  }

  lemma JoinCons(a: string, parts: seq<string>)
    requires parts != []
    ensures Join([a] + parts, ",") == a + ("," + Join(parts, ","))
  {
  }

  /** Joining the pieces of any text with commas gives the text back. */
  lemma {:induction false} JoinSplit(s: string)
    ensures Split(s) != [] && Join(Split(s), ",") == s
    decreases |s|
  {
    var k := Cut(s, START);
    if k < |s| {
      CutIsTopLevel(s, START);
      JoinSplit(s[k + 1..]);
      JoinCons(s[..k], Split(s[k + 1..]));
      Take(s, k);
      HeadTail(s, k);
    }
  }

  /** No piece, scanned alone, has a top-level comma. */
  lemma {:induction false} PiecesHaveNoComma(s: string, i: nat)
    requires i < |Split(s)|
    ensures Cut(Split(s)[i], START) == |Split(s)[i]|
    decreases |s|
  {
    var k := Cut(s, START);
    CutIsTopLevel(s, START);
    if k < |s| && i > 0 {
      PiecesHaveNoComma(s[k + 1..], i - 1);
    }
  }

  lemma BalancedAtComma(a: string, b: string)
    requires Balanced(a + ([','] + b)) && Scan(START, a) == START
    ensures Balanced(a) && Balanced(b)
  {
    assert ([','] + b)[1..] == b;
    ScanAppend(START, a, [','] + b);
    StaysAppend(a, [','] + b, START);
  }

  /** The pieces of a balanced text are balanced themselves. */
  lemma {:induction false} PiecesAreBalanced(s: string, i: nat)
    requires Balanced(s) && i < |Split(s)|
    ensures Balanced(Split(s)[i])
    decreases |s|
  {
    var k := Cut(s, START);
    if k < |s| {
      CutIsTopLevel(s, START);
      var a, b := s[..k], s[k + 1..];
      assert s == a + ([','] + b);
      BalancedAtComma(a, b);
      if i > 0 {
        PiecesAreBalanced(b, i - 1);
        assert Split(s)[i] == Split(b)[i - 1];
      }
    }
  }

  /** The argument texts of a matched call are balanced. */
  lemma ArgumentsOfCall(s: string, open: nat, i: nat)
    requires open < |s| && s[open] == '(' && Match(s, open) != -1
    requires open < Match(s, open) && i < |Split(s[open + 1..Match(s, open)])|
    ensures Argument(Split(s[open + 1..Match(s, open)])[i])
  {
    EnclosedIsBalanced(s, open);
    PiecesAreBalanced(s[open + 1..Match(s, open)], i);
    PiecesHaveNoComma(s[open + 1..Match(s, open)], i);
  }

  lemma CutComma(rest: string)
    ensures Cut("," + rest, START) == 0
  {
  }

  /** Splitting the join of arguments gives the arguments back. */
  lemma {:induction false} SplitJoin(parts: seq<string>)
    requires parts != []
    requires forall i :: 0 <= i < |parts| ==> Scan(START, parts[i]) == START && Cut(parts[i], START) == |parts[i]|
    ensures Split(Join(parts, ",")) == parts
    decreases |parts|
  {
    if |parts| > 1 {
      hide Cut, Scan;
      var a, rest := parts[0], Join(parts[1..], ",");
      var s := a + ("," + rest);
      CutAppend(START, a, "," + rest);
      CutComma(rest);
      assert s[..|a|] == a && s[|a| + 1..] == rest;
      SplitJoin(parts[1..]);
    }
  }

  lemma {:induction false} JoinBalanced(parts: seq<string>)
    requires forall i :: 0 <= i < |parts| ==> Balanced(parts[i])
    ensures Balanced(Join(parts, ","))
    decreases |parts|
  {
    if |parts| > 1 {
      JoinBalanced(parts[1..]);
      BalancedPair(",", Join(parts[1..], ","));
      BalancedPair(parts[0], "," + Join(parts[1..], ","));
    }
  }

  lemma BalancedPair(a: string, b: string)
    requires Balanced(a) && Balanced(b)
    ensures Balanced(a + b)
  {
    ScanAppend(START, a, b);
    StaysAppend(a, b, START);
  }

  lemma ArgumentPair(a: string, b: string)
    requires Argument(a) && Argument(b)
    ensures Argument(a + b)
  {
    BalancedPair(a, b);
    CutAppend(START, a, b);
  }

  lemma OpenedScan(t: string)
    ensures Scan(START, "(" + t) == Scan(State(1, false), t)
    ensures Stays("(" + t, START) == Stays(t, State(1, false))
    ensures Cut("(" + t, START) == 1 + Cut(t, State(1, false))
  {
    assert ("(" + t)[1..] == t;
  }

  lemma ClosingScan()
    ensures Scan(State(1, false), ")") == START && Stays(")", State(1, false)) && Cut(")", State(1, false)) == 1
  {
  }

  /** A balanced text in parentheses is one argument, whatever commas it has. */
  lemma Parenthesized(body: string)
    requires Balanced(body)
    ensures Argument("(" + body + ")")
  {
    hide Scan, Stays, Cut, Reach;
    Assoc("(", body, ")");
    OpenedScan(body + ")");
    StaysInside(body, START);
    ScanShift(body, START, 1);
    StaysUp(body, START, 1);
    ScanAppend(State(1, false), body, ")");
    StaysAppend(body, ")", State(1, false));
    CutAppend(State(1, false), body, ")");
    ClosingScan();
  }

  /** Text without quotes, parentheses and commas. */
  predicate Plain(s: string) {
    forall i :: 0 <= i < |s| ==> s[i] != '\'' && s[i] != '(' && s[i] != ')' && s[i] != ','
  }

  lemma {:induction false} PlainIsArgument(s: string)
    requires Plain(s)
    ensures Argument(s)
    decreases |s|
  {
    if s != [] {
      PlainIsArgument(s[1..]);
    }
  }
}

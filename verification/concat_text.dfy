/** rewriteConcat on printed expressions: passes lower them in place, up to the first literal in which a
    call head can be read. */
module ConcatText {
  import opened Text
  import opened Scanner
  import opened CallPattern
  import opened Literal
  import opened Concat
  import opened ConcatMeaning

  // ----------------------------------------- printed expressions are arguments

  lemma {:induction false} NamePlain(name: string)
    requires IsName(name)
    ensures Argument(name) && Tight(name)
  {
    assert forall i :: 0 <= i < |name| ==> IsWord(name[i]);
    assert Plain(name);
    PlainIsArgument(name);
    assert IsWord(name[0]) && IsWord(name[|name| - 1]);
  }

  lemma {:induction false} HeadPlain(head: string)
    requires CallHead(head, CONCAT)
    ensures Argument(head) && head != "" && !IsSpace(head[0])
  {
    ConcatIsKeyword();
    forall i | 0 <= i < |head|
      ensures head[i] != '\'' && head[i] != '(' && head[i] != ')' && head[i] != ','
    {
      if i < |CONCAT| {
        SpelledLetters(head, CONCAT, i);
      } else {
        AllBlankAt(head[|CONCAT|..], i - |CONCAT|);
      }
    }
    PlainIsArgument(head);
    SpelledLetters(head, CONCAT, 0);
  }

  lemma CallIsArgument(name: string, body: string)
    requires Argument(name) && Balanced(body) && (name == "" || !IsSpace(name[0]))
    ensures Argument(name + ("(" + (body + ")"))) && Tight(name + ("(" + (body + ")")))
  {
    Parenthesized(body);
    Assoc("(", body, ")");
    ArgumentPair(name, "(" + body + ")");
    var t := name + ("(" + (body + ")"));
    assert t[|t| - 1] == ')' && t[0] == (if name == "" then '(' else name[0]);
  }

  lemma {:induction false} PrintIsArgument(e: Expr)
    requires Sound(e)
    ensures Argument(Print(e)) && Tight(Print(e))
    decreases e, 1
  {
    match e
    case Lit(s) => LiteralIsArgument(s);
    case Col(name) => NamePlain(name);
    case Fn(name, args) =>
      NamePlain(name);
      PrintsAreArguments(args);
      JoinBalanced(Prints(args));
      CallIsArgument(name, Join(Prints(args), ","));
    case Pipes(args) =>
      PrintsAreArguments(args);
      PipesBalanced(Prints(args));
      var body := Join(Prints(args), PIPES);
      assert "" + ("(" + (body + ")")) == "(" + (body + ")");
      CallIsArgument("", body);
    case ConcatCall(head, args) =>
      HeadPlain(head);
      PrintsAreArguments(args);
      JoinBalanced(Prints(args));
      CallIsArgument(head, Join(Prints(args), ","));
  }

  lemma {:induction false} PipesBalanced(parts: seq<string>)
    requires forall i :: 0 <= i < |parts| ==> Balanced(parts[i])
    ensures Balanced(Join(parts, PIPES))
    decreases |parts|
  {
    if |parts| > 1 {
      PipesBalanced(parts[1..]);
      PlainIsArgument(PIPES);
      BalancedPair(PIPES, Join(parts[1..], PIPES));
      BalancedPair(parts[0], PIPES + Join(parts[1..], PIPES));
    }
  }

  lemma SpacePlain(pad: string)
    requires AllSpace(pad)
    ensures Argument(pad)
  {
    assert Plain(pad);
    PlainIsArgument(pad);
  }

  lemma {:induction false} PrintsAreArguments(args: seq<Arg>)
    requires AllSound(args)
    ensures forall i :: 0 <= i < |args| ==> Argument(Prints(args)[i])
    decreases args, 0
  {
    if args != [] {
      var a := args[0];
      PrintIsArgument(a.e);
      SpacePlain(a.lead);
      SpacePlain(a.trail);
      ArgumentPair(Print(a.e), a.trail);
      ArgumentPair(a.lead, Print(a.e) + a.trail);
      PrintsAreArguments(args[1..]);
    }
  }

  // --------------------------------------------------- one pass on a printed CONCAT

  lemma PrintOrEmpty(e: Expr)
    requires Sound(e)
    ensures Print(OrEmpty(e)) == COALESCE + (Print(e) + OR_EMPTY)
  {
    var args := OrEmpty(e).args;
    var empty := Arg("", Lit(""), "");
    assert args[1..] == [empty] && [empty][1..] == [];
    EmptyLiteralSound();
    assert PrintArg(empty) == "''";
    assert PrintArg(args[0]) == Print(e);
    assert Prints([empty]) == ["''"] + Prints([empty][1..]) == ["''"];
    assert Prints(args) == [Print(e)] + ["''"];
    assert Prints(args)[1..] == ["''"];
    assert Join(Prints(args), ",") == Print(e) + ("," + "''");
    Assoc(Print(e), "," + "''", ")");
    assert ("," + "''") + ")" == OR_EMPTY;
    Assoc("COALESCE", "(", Print(e) + OR_EMPTY);
    assert "COALESCE" + "(" == COALESCE;
  }

  lemma {:induction false} TermsOfPrints(args: seq<Arg>)
    requires AllSound(args) && args != []
    ensures Terms(Prints(args)) == Join(Prints(Wrap(args)), PIPES)
    decreases |args|
  {
    var a := args[0];
    PrintIsArgument(a.e);
    PrintOrEmpty(a.e);
    TrimPadded(a.lead, Print(a.e), a.trail);
    Assoc(a.lead, Print(a.e), a.trail);
    var w := Wrap(args);
    assert w[1..] == Wrap(args[1..]);
    assert PrintArg(w[0]) == Print(OrEmpty(a.e));
    assert Prints(args)[1..] == Prints(args[1..]);
    assert Prints(w)[1..] == Prints(w[1..]);
    if |args| > 1 {
      TermsOfPrints(args[1..]);
    }
  }

  /** Text after which a printed call of CONCAT is the first one. */
  predicate Clear(pre: string) {
    NoCall(pre + "(", CONCAT) && (pre == [] || !IsFoldedWord(pre[|pre| - 1]))
  }

  lemma PassOfCall(c: Call)
    requires Clear(c.pre) && CallHead(c.head, CONCAT) && Balanced(c.body)
    ensures Pass(c.Text()) == Some(Replaced(c))
  {
    ConcatIsKeyword();
    NoCallPrefix(c.pre, "(", CONCAT, true);
    FirstPrintedCall(c, CONCAT);
  }

  lemma PrintedAround(pre: string, head: string, body: string, post: string)
    ensures pre + ((head + ("(" + (body + ")"))) + post) == pre + (head + ("(" + (body + (")" + post))))
    ensures pre + (("(" + (body + ")")) + post) == pre + ("(" + (body + (")" + post)))
  {
  }

  /** One pass turns a printed CONCAT into a chain over its arguments as they stand. */
  lemma PassOfPrinted(pre: string, head: string, args: seq<Arg>, post: string)
    requires Clear(pre) && Sound(ConcatCall(head, args))
    ensures Pass(pre + (Print(ConcatCall(head, args)) + post)) == Some(pre + (Print(Pipes(Wrap(args))) + post))
  {
    var parts := Prints(args);
    var body := Join(parts, ",");
    PrintsAreArguments(args);
    JoinBalanced(parts);
    SplitJoin(parts);
    TermsOfPrints(args);
    PassOfCall(Call(pre, head, body, post));
    PrintedAround(pre, head, body, post);
    PrintedAround(pre, head, Terms(parts), post);
  }

  // ------------------------------------------------------------ clear contexts

  /** A clear text hides nothing of what follows it. */
  lemma {:induction false} FindAfterClear(a: string, t: string, boundary: bool)
    requires a == [] || !IsFoldedWord(a[|a| - 1])
    requires Find(a + "(", CONCAT, boundary) == |a + "("|
    ensures Find(a + t, CONCAT, boundary) == |a| + Find(t, CONCAT, a != [] || boundary)
    decreases |a|
  {
    if a == [] {
      assert a + t == t;
    } else {
      assert (a + t)[1..] == a[1..] + t && (a + "(")[1..] == a[1..] + "(";
      if boundary {
        NoHeadAcross(a, t);
      }
      FindAfterClear(a[1..], t, !IsWord(a[0]));
    }
  }

  lemma NoHeadAcross(a: string, t: string)
    requires a != [] && !IsFoldedWord(a[|a| - 1]) && Head(a + "(", CONCAT) < 0
    ensures Head(a + t, CONCAT) < 0
  {
    ConcatIsKeyword();
    SpellsAppend(a, t, CONCAT);
    SpellsAppend(a, "(", CONCAT);
    if Spells(a, CONCAT) {
      SpellsLength(a, CONCAT);
      var rest := a[|CONCAT|..];
      assert (a + t)[|CONCAT|..] == rest + t && (a + "(")[|CONCAT|..] == rest + "(";
      BlanksAppend(rest, t);
      BlanksAppend(rest, "(");
      var n := |CONCAT| + Blanks(rest);
      assert n < |a| ==> (a + t)[n] == a[n] && (a + "(")[n] == a[n];
    }
  }

  lemma ClearPair(a: string, b: string)
    requires Clear(a) && Clear(b)
    ensures Clear(a + b)
  {
    if b == [] {
      assert a + b == a;
    } else {
      Assoc(a, b, "(");
      FindAfterClear(a, b + "(", true);
      assert (a + b)[|a + b| - 1] == b[|b| - 1];
    }
  }

  /** Text without a call, ending outside words and blanks. */
  lemma ClearSolid(t: string)
    requires NoCall(t, CONCAT) && t != [] && !IsFoldedWord(t[|t| - 1]) && !IsBlank(t[|t| - 1])
    ensures Clear(t)
  {
    ConcatIsKeyword();
    FindAppend(t, "(", CONCAT, true);
  }

  /** White space and punctuation. */
  lemma ClearMarks(t: string)
    requires forall i :: 0 <= i < |t| ==> !IsFoldedWord(t[i])
    ensures Clear(t)
  {
    NoCallWithout(t + "(", CONCAT, true);
  }

  /** What may stand after a name without making it a call. */
  predicate AfterName(tail: string) {
    tail != [] && !IsFoldedWord(tail[0]) && Clear(tail) && Blanks(tail) < |tail| && tail[Blanks(tail)] != '('
  }

  lemma {:induction false} InsideWord(name: string, tail: string)
    requires forall i :: 0 <= i < |name| ==> IsWord(name[i])
    requires tail != [] && !IsFoldedWord(tail[0])
    ensures Find(name + tail, CONCAT, false) == |name| + Find(tail, CONCAT, true)
  {
    if name == [] {
      assert name + tail == tail;
      assert CONCAT[0] == 'c' && !Spells(tail, CONCAT);
    } else {
      assert (name + tail)[1..] == name[1..] + tail;
      InsideWord(name[1..], tail);
    }
  }

  lemma {:induction false} SpellsWord(name: string, tail: string, kw: string)
    requires Letters(kw) && tail != [] && !IsFoldedWord(tail[0])
    ensures Spells(name + tail, kw) == Spells(name, kw)
  {
    if name == [] {
      assert name + tail == tail;
    } else if kw != "" {
      assert (name + tail)[1..] == name[1..] + tail;
      SpellsWord(name[1..], tail, kw[1..]);
    }
  }

  /** A name is a call only when it is CONCAT and a parenthesis comes next. */
  lemma HeadOfName(name: string, tail: string)
    requires IsName(name) && tail != [] && !IsFoldedWord(tail[0])
    requires ToLower(name) == CONCAT ==> Blanks(tail) == |tail| || tail[Blanks(tail)] != '('
    ensures Head(name + tail, CONCAT) < 0
  {
    hide Head, Spells, Blanks, Letters, ToLower, IsFoldedWord;
    ConcatIsKeyword();
    SpellsWord(name, tail, CONCAT);
    if !Spells(name, CONCAT) {
      NoHeadUnspelled(name + tail, CONCAT);
    } else {
      SpellsLength(name, CONCAT);
      if |name| == |CONCAT| {
        SpelledIsLower(name, CONCAT);
        NoHeadAfter(name, tail, CONCAT);
      } else {
        WordGoesOn(name, tail, |CONCAT|);
        NoHeadAfter(name[..|CONCAT|], name[|CONCAT|..] + tail, CONCAT);
      }
    }
  }

  lemma NoHeadUnspelled(s: string, kw: string)
    requires !Spells(s, kw)
    ensures Head(s, kw) < 0
  {
  }

  lemma WordGoesOn(name: string, tail: string, n: nat)
    requires IsName(name) && n < |name|
    ensures name + tail == name[..n] + (name[n..] + tail)
    ensures Blanks(name[n..] + tail) == 0 && (name[n..] + tail)[0] != '('
  {
    assert IsWord(name[n]) && (name[n..] + tail)[0] == name[n];
    BlanksStart(name[n..] + tail);
  }

  lemma NoHeadAfter(word: string, tail: string, kw: string)
    requires |word| == |kw| && (Blanks(tail) == |tail| || tail[Blanks(tail)] != '(')
    ensures Head(word + tail, kw) < 0
  {
    hide Spells, Blanks;
    assert (word + tail)[|kw|..] == tail;
    assert Blanks(tail) < |tail| ==> (word + tail)[|kw| + Blanks(tail)] == tail[Blanks(tail)];
  }

  lemma SpelledIsLower(name: string, kw: string)
    requires IsName(name) && Letters(kw) && Spells(name, kw) && |name| == |kw|
    ensures ToLower(name) == kw
  {
  }

  lemma ClearName(name: string, tail: string)
    requires IsName(name) && tail != [] && !IsFoldedWord(tail[0]) && Clear(tail)
    requires ToLower(name) == CONCAT ==> Blanks(tail) < |tail| && tail[Blanks(tail)] != '('
    ensures Clear(name + tail)
  {
    var x := tail + "(";
    Assoc(name, tail, "(");
    BlanksAppend(tail, "(");
    HeadOfName(name, x);
    assert (name + x)[1..] == name[1..] + x && IsWord(name[0]);
    InsideWord(name[1..], x);
    assert (name + tail)[|name + tail| - 1] == tail[|tail| - 1];
  }

  // ---------------------------------------------------------------- the theorem

  ghost predicate Lowest(e: Expr)
    decreases e, 1
  {
    match e
    case Lit(_) => true
    case Col(_) => true
    case Fn(_, args) => AllLowest(args)
    case Pipes(args) => AllLowest(args)
    case ConcatCall(_, _) => false
  }

  ghost predicate AllLowest(args: seq<Arg>)
    decreases args, 0
  {
    args == [] || (Lowest(args[0].e) && AllLowest(args[1..]))
  }

  /** No literal holds text that reads as the head of a call of CONCAT. */
  ghost predicate Clean(e: Expr)
    decreases e, 1
  {
    match e
    case Lit(s) => NoCall(SqlStringLiteral(s), CONCAT)
    case Col(_) => true
    case Fn(_, args) => AllClean(args)
    case Pipes(args) => AllClean(args)
    case ConcatCall(_, args) => AllClean(args)
  }

  ghost predicate AllClean(args: seq<Arg>)
    decreases args, 0
  {
    args == [] || (Clean(args[0].e) && AllClean(args[1..]))
  }

  lemma EmptyIsClean()
    ensures Clean(Lit("")) && AllClean([Arg("", Lit(""), "")])
  {
    NoCallWithout("''", CONCAT, true);
    assert SqlStringLiteral("") == "''";
    assert [Arg("", Lit(""), "")][1..] == [];
  }

  lemma OrEmptyClean(e: Expr)
    ensures Clean(OrEmpty(e)) <==> Clean(e)
  {
    var inner := OrEmpty(e).args;
    EmptyIsClean();
    assert inner[0].e == e && inner[1..] == [Arg("", Lit(""), "")];
  }

  lemma {:induction false} WrapClean(args: seq<Arg>)
    ensures AllClean(Wrap(args)) <==> AllClean(args)
  {
    if args != [] {
      OrEmptyClean(args[0].e);
      WrapClean(args[1..]);
      assert Wrap(args)[1..] == Wrap(args[1..]);
    }
  }

  lemma {:induction false} LoweredClean(e: Expr)
    ensures Clean(Lowered(e)) <==> Clean(e)
    decreases e, 1
  {
    match e
    case Lit(_) =>
    case Col(_) =>
    case Fn(_, args) => AllLoweredClean(args);
    case Pipes(args) => AllLoweredClean(args);
    case ConcatCall(_, args) =>
      AllLoweredClean(args);
      WrapClean(AllLowered(args));
  }

  lemma {:induction false} AllLoweredClean(args: seq<Arg>)
    ensures AllClean(AllLowered(args)) <==> AllClean(args)
    decreases args, 0
  {
    if args != [] {
      LoweredClean(args[0].e);
      AllLoweredClean(args[1..]);
      assert AllLowered(args)[1..] == AllLowered(args[1..]);
    }
  }

  lemma {:induction false} LoweredIsLowest(e: Expr)
    requires Sound(e)
    ensures Sound(Lowered(e)) && Lowest(Lowered(e))
    decreases e, 1
  {
    match e
    case Lit(_) =>
    case Col(_) =>
    case Fn(_, args) => AllLoweredLowest(args);
    case Pipes(args) => AllLoweredLowest(args);
    case ConcatCall(_, args) =>
      AllLoweredLowest(args);
      WrapSound(AllLowered(args));
      WrapLowest(AllLowered(args));
  }

  lemma {:induction false} AllLoweredLowest(args: seq<Arg>)
    requires AllSound(args)
    ensures AllSound(AllLowered(args)) && AllLowest(AllLowered(args))
    decreases args, 0
  {
    if args != [] {
      LoweredIsLowest(args[0].e);
      AllLoweredLowest(args[1..]);
      assert AllLowered(args)[1..] == AllLowered(args[1..]);
    }
  }

  lemma {:induction false} WrapLowest(args: seq<Arg>)
    requires AllLowest(args)
    ensures AllLowest(Wrap(args))
  {
    if args != [] {
      OrEmptyLowest(args[0].e);
      WrapLowest(args[1..]);
      assert Wrap(args)[1..] == Wrap(args[1..]);
    }
  }

  lemma OrEmptyLowest(e: Expr)
    requires Lowest(e)
    ensures Lowest(OrEmpty(e))
  {
    var inner := OrEmpty(e).args;
    var empty := Arg("", Lit(""), "");
    assert inner[0].e == e && inner[1..] == [empty] && [empty][1..] == [];
    assert Lowest(empty.e) && AllLowest([]);
    assert AllLowest([empty]);
    assert AllLowest(inner);
  }

  /** Past a printed expression without CONCAT the text is clear again. */
  lemma {:induction false} ClearAfter(e: Expr, tail: string)
    requires Sound(e) && Lowest(e) && Clean(e) && AfterName(tail)
    ensures Clear(Print(e) + tail)
    decreases e, 1
  {
    match e
    case Lit(s) =>
      var t := SqlStringLiteral(s);
      assert t[|t| - 1] == '\'';
      ClearSolid(t);
      ClearPair(t, tail);
    case Col(name) =>
      ClearName(name, tail);
    case Fn(name, args) =>
      ClearMarks("(");
      ClearName(name, "(");
      ClearAfterArgs(name + "(", args, ",");
      Assoc(name, "(", Join(Prints(args), ",") + ")");
      ClearPair(Print(e), tail);
    case Pipes(args) =>
      ClearMarks("(");
      ClearAfterArgs("(", args, PIPES);
      ClearPair(Print(e), tail);
  }

  /** The separators of the printer. */
  predicate Separator(sep: string) {
    sep == "," || sep == PIPES
  }

  lemma AfterTrail(trail: string, mark: string)
    requires AllSpace(trail) && (Separator(mark) || mark == ")")
    ensures AfterName(trail + mark)
  {
    assert forall i :: 0 <= i < |trail| ==> IsSpace(trail[i]);
    ClearMarks(trail + mark);
    BlanksAppend(trail, mark);
    if Blanks(trail) < |trail| {
      assert (trail + mark)[Blanks(trail)] == trail[Blanks(trail)];
      assert IsSpace(trail[Blanks(trail)]);
    } else if mark == PIPES {
      assert PIPES[1..][0] == '|' && Blanks(PIPES[1..]) == 0 && Blanks(PIPES) == 1;
      assert (trail + mark)[|trail| + 1] == PIPES[1];
    } else {
      assert Blanks(mark) == 0;
      assert (trail + mark)[|trail|] == mark[0];
    }
  }

  lemma {:induction false} ClearAfterArgs(pre: string, args: seq<Arg>, sep: string)
    requires Clear(pre) && AllSound(args) && AllLowest(args) && AllClean(args) && Separator(sep)
    ensures Clear(pre + (Join(Prints(args), sep) + ")"))
    decreases args, 0
  {
    if args == [] {
      ClearMarks(")");
      assert "" + ")" == ")";
      ClearPair(pre, ")");
    } else {
      var a := args[0];
      assert Prints(args)[1..] == Prints(args[1..]);
      var mark := if |args| == 1 then ")" else sep;
      var next := ClearOneArg(pre, a, mark);
      var rest := Join(Prints(args[1..]), sep);
      if |args| == 1 {
        Assoc(a.lead, Print(a.e) + a.trail, ")");
        Assoc(Print(a.e), a.trail, ")");
      } else {
        ClearAfterArgs(next, args[1..], sep);
        ArgThenRest(pre, a, sep, rest, ")");
      }
    }
  }

  /** The text up to and including the mark after one operand. */
  function Past(pre: string, a: Arg, mark: string): string {
    pre + (a.lead + (Print(a.e) + (a.trail + mark)))
  }

  lemma ClearOneArg(pre: string, a: Arg, mark: string) returns (next: string)
    requires Clear(pre) && AllSpace(a.lead) && AllSpace(a.trail) && Sound(a.e) && Lowest(a.e) && Clean(a.e)
    requires Separator(mark) || mark == ")"
    ensures next == Past(pre, a, mark) && Clear(next)
    decreases a.e, 2
  {
    assert forall i :: 0 <= i < |a.lead| ==> IsSpace(a.lead[i]);
    AfterTrail(a.trail, mark);
    ClearAfter(a.e, a.trail + mark);
    ClearMarks(a.lead);
    ClearPair(a.lead, Print(a.e) + (a.trail + mark));
    ClearPair(pre, a.lead + (Print(a.e) + (a.trail + mark)));
    next := Past(pre, a, mark);
  }

  lemma ArgThenRest(pre: string, a: Arg, sep: string, rest: string, post: string)
    ensures pre + ((PrintArg(a) + (sep + rest)) + post) == Past(pre, a, sep) + (rest + post)
    ensures pre + ((PrintArg(a) + (sep + rest)) + post) ==
            (pre + a.lead) + (Print(a.e) + (a.trail + (sep + (rest + post))))
  {
  }

  /** How many CONCATs an expression holds. */
  function Concats(e: Expr): nat
    decreases e, 1
  {
    match e
    case Lit(_) => 0
    case Col(_) => 0
    case Fn(_, args) => AllConcats(args)
    case Pipes(args) => AllConcats(args)
    case ConcatCall(_, args) => 1 + AllConcats(args)
  }

  function AllConcats(args: seq<Arg>): nat
    decreases args, 0
  {
    if args == [] then 0 else Concats(args[0].e) + AllConcats(args[1..])
  }

  lemma {:induction false} WrapConcats(args: seq<Arg>)
    ensures AllConcats(Wrap(args)) == AllConcats(args)
    ensures AllLowered(Wrap(args)) == Wrap(AllLowered(args))
  {
    if args != [] {
      var empty := Arg("", Lit(""), "");
      var inner := OrEmpty(args[0].e).args;
      assert inner[1..] == [empty] && [empty][1..] == [];
      assert AllConcats([empty]) == 0 && AllLowered([empty]) == [empty];
      assert AllConcats(inner) == Concats(args[0].e) + AllConcats(inner[1..]);
      assert Concats(Wrap(args)[0].e) == AllConcats(inner);
      assert AllLowered(inner) == OrEmpty(Lowered(args[0].e)).args;
      assert Wrap(args)[1..] == Wrap(args[1..]);
      assert AllLowered(args)[1..] == AllLowered(args[1..]);
      WrapConcats(args[1..]);
    }
  }

  /** The expression lowered up to its first unclean literal: what is printed before it, and every
      CONCAT around it. */
  ghost function Half(e: Expr): Expr
    decreases e, 1
  {
    match e
    case Lit(_) => e
    case Col(_) => e
    case Fn(name, args) => Fn(name, HalfAll(args))
    case Pipes(args) => Pipes(HalfAll(args))
    case ConcatCall(_, args) => Pipes(Wrap(HalfAll(args)))
  }

  ghost function HalfAll(args: seq<Arg>): (r: seq<Arg>)
    ensures |r| == |args|
    decreases args, 0
  {
    if args == [] then []
    else if Clean(args[0].e) then [args[0].(e := Lowered(args[0].e))] + HalfAll(args[1..])
    else [args[0].(e := Half(args[0].e))] + args[1..]
  }

  lemma {:induction false} CleanHalf(e: Expr)
    requires Clean(e)
    ensures Half(e) == Lowered(e)
    decreases e, 1
  {
    match e
    case Lit(_) =>
    case Col(_) =>
    case Fn(_, args) => CleanHalves(args);
    case Pipes(args) => CleanHalves(args);
    case ConcatCall(_, args) => CleanHalves(args);
  }

  lemma {:induction false} CleanHalves(args: seq<Arg>)
    requires AllClean(args)
    ensures HalfAll(args) == AllLowered(args)
    decreases args, 0
  {
    if args != [] {
      CleanHalves(args[1..]);
    }
  }

  lemma HalfOfOrEmpty(e: Expr)
    ensures Lowered(OrEmpty(e)) == OrEmpty(Lowered(e))
    ensures !Clean(e) ==> Half(OrEmpty(e)) == OrEmpty(Half(e))
  {
    var empty := Arg("", Lit(""), "");
    var inner := OrEmpty(e).args;
    assert inner[0] == Arg("", e, "") && inner[1..] == [empty] && [empty][1..] == [];
    assert AllLowered([empty]) == [empty];
    assert AllLowered(inner) == [Arg("", Lowered(e), "")] + [empty];
    if !Clean(e) {
      assert HalfAll(inner) == [Arg("", Half(e), "")] + [empty];
    }
  }

  lemma {:induction false} HalfOfWrap(args: seq<Arg>)
    ensures HalfAll(Wrap(args)) == Wrap(HalfAll(args))
  {
    if args != [] {
      var w := Wrap(args);
      assert w[0] == Arg("", OrEmpty(args[0].e), "") && w[1..] == Wrap(args[1..]);
      OrEmptyClean(args[0].e);
      HalfOfOrEmpty(args[0].e);
      HalfOfWrap(args[1..]);
      assert HalfAll(args)[1..] == if Clean(args[0].e) then HalfAll(args[1..]) else args[1..];
    }
  }

  /** Rewriting lowers a printed expression in place up to its first unclean literal, whatever
      stands around it. */
  lemma {:induction false} RewritesHalf(pre: string, e: Expr, post: string)
    requires Clear(pre) && Sound(e)
    ensures Rewritten(pre + (Print(e) + post)) == Rewritten(pre + (Print(Half(e)) + post))
    decreases Concats(e), e, 1
  {
    match e
    case Lit(_) =>
    case Col(_) =>
    case Fn(name, args) =>
      ClearMarks("(");
      ClearName(name, "(");
      ClearPair(pre, name + "(");
      RewritesHalves(pre + (name + "("), args, ",", ")" + post);
      CallAround(pre, name, Join(Prints(args), ","), post);
      CallAround(pre, name, Join(Prints(HalfAll(args)), ","), post);
    case Pipes(args) =>
      ClearMarks("(");
      ClearPair(pre, "(");
      RewritesHalves(pre + "(", args, PIPES, ")" + post);
      CallAround(pre, "", Join(Prints(args), PIPES), post);
      CallAround(pre, "", Join(Prints(HalfAll(args)), PIPES), post);
    case ConcatCall(head, args) =>
      PassOfPrinted(pre, head, args, post);
      WrapSound(args);
      WrapConcats(args);
      HalfOfWrap(args);
      RewritesHalf(pre, Pipes(Wrap(args)), post);
  }

  lemma CallAround(pre: string, name: string, body: string, post: string)
    ensures pre + ((name + ("(" + (body + ")"))) + post) == (pre + (name + "(")) + (body + (")" + post))
    ensures pre + (("(" + (body + ")")) + post) == (pre + "(") + (body + (")" + post))
  {
  }

  lemma {:induction false} RewritesHalves(pre: string, args: seq<Arg>, sep: string, post: string)
    requires Clear(pre) && AllSound(args) && Separator(sep)
    ensures Rewritten(pre + (Join(Prints(args), sep) + post)) ==
            Rewritten(pre + (Join(Prints(HalfAll(args)), sep) + post))
    decreases AllConcats(args), args, 0
  {
    if args != [] {
      var a, half := args[0], args[0].(e := Half(args[0].e));
      assert forall i :: 0 <= i < |a.lead| ==> IsSpace(a.lead[i]);
      ClearMarks(a.lead);
      ClearPair(pre, a.lead);
      if Clean(a.e) {
        CleanHalf(a.e);
        LoweredIsLowest(a.e);
        LoweredClean(a.e);
      }
      var halves := if Clean(a.e) then HalfAll(args[1..]) else args[1..];
      assert HalfAll(args) == [half] + halves && HalfAll(args)[1..] == halves;
      assert Prints(args)[1..] == Prints(args[1..]);
      assert Prints(HalfAll(args))[1..] == Prints(halves);
      if |args| == 1 {
        RewritesHalf(pre + a.lead, a.e, a.trail + post);
        OneArg(pre, a, post);
        OneArg(pre, half, post);
      } else {
        var rest, halfRest := Join(Prints(args[1..]), sep), Join(Prints(halves), sep);
        RewritesHalf(pre + a.lead, a.e, a.trail + (sep + (rest + post)));
        ArgThenRest(pre, a, sep, rest, post);
        ArgThenRest(pre, half, sep, rest, post);
        if Clean(a.e) {
          var next := ClearOneArg(pre, half, sep);
          RewritesHalves(next, args[1..], sep, post);
        }
        ArgThenRest(pre, half, sep, halfRest, post);
      }
    }
  }

  lemma OneArg(pre: string, a: Arg, post: string)
    ensures pre + (PrintArg(a) + post) == (pre + a.lead) + (Print(a.e) + (a.trail + post))
  {
  }
}

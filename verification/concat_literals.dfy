/** rewriteConcat also reads calls inside string literals: when the rewritten text is the text of the
    lowered expression all the same, and when a literal survives. */
module ConcatLiterals {
  import opened Text
  import opened Scanner
  import opened CallPattern
  import opened Literal
  import opened Concat
  import opened ConcatMeaning
  import opened ConcatText

  /** No literal with a readable call head is printed before a CONCAT; one may stand inside
      a CONCAT or after all of them. */
  ghost predicate InOrder(e: Expr)
    decreases e, 1
  {
    match e
    case Lit(_) => true
    case Col(_) => true
    case Fn(_, args) => AllInOrder(args)
    case Pipes(args) => AllInOrder(args)
    case ConcatCall(_, args) => AllInOrder(args)
  }

  ghost predicate AllInOrder(args: seq<Arg>)
    decreases args, 0
  {
    args == [] ||
    (InOrder(args[0].e) && (Clean(args[0].e) || AllConcats(args[1..]) == 0) && AllInOrder(args[1..]))
  }

  // ----------------------------------------------- the half-lowered expression

  lemma {:induction false} NothingToLower(e: Expr)
    requires Concats(e) == 0
    ensures Lowered(e) == e
    decreases e, 1
  {
    match e
    case Lit(_) =>
    case Col(_) =>
    case Fn(_, args) => NothingToLowerAll(args);
    case Pipes(args) => NothingToLowerAll(args);
  }

  lemma {:induction false} NothingToLowerAll(args: seq<Arg>)
    requires AllConcats(args) == 0
    ensures AllLowered(args) == args
    decreases args, 0
  {
    if args != [] {
      NothingToLower(args[0].e);
      NothingToLowerAll(args[1..]);
      assert args == [args[0]] + args[1..];
    }
  }

  lemma {:induction false} LoweredHasNone(e: Expr)
    ensures Concats(Lowered(e)) == 0
    decreases e, 1
  {
    match e
    case Lit(_) =>
    case Col(_) =>
    case Fn(_, args) => LoweredHaveNone(args);
    case Pipes(args) => LoweredHaveNone(args);
    case ConcatCall(_, args) =>
      LoweredHaveNone(args);
      WrapConcats(AllLowered(args));
  }

  lemma {:induction false} LoweredHaveNone(args: seq<Arg>)
    ensures AllConcats(AllLowered(args)) == 0
    decreases args, 0
  {
    if args != [] {
      LoweredHasNone(args[0].e);
      LoweredHaveNone(args[1..]);
      assert AllLowered(args)[1..] == AllLowered(args[1..]);
    }
  }

  /** In order, the whole expression is lowered; out of order a CONCAT remains. */
  lemma {:induction false} HalfInOrder(e: Expr)
    ensures InOrder(e) ==> Half(e) == Lowered(e)
    ensures Concats(Half(e)) == 0 ==> InOrder(e)
    decreases e, 1
  {
    match e
    case Lit(_) =>
    case Col(_) =>
    case Fn(_, args) => HalvesInOrder(args);
    case Pipes(args) => HalvesInOrder(args);
    case ConcatCall(_, args) =>
      HalvesInOrder(args);
      WrapConcats(HalfAll(args));
  }

  lemma {:induction false} HalvesInOrder(args: seq<Arg>)
    ensures AllInOrder(args) ==> HalfAll(args) == AllLowered(args)
    ensures AllConcats(HalfAll(args)) == 0 ==> AllInOrder(args)
    decreases args, 0
  {
    if args != [] {
      HalfInOrder(args[0].e);
      HalvesInOrder(args[1..]);
      var halves := if Clean(args[0].e) then HalfAll(args[1..]) else args[1..];
      assert HalfAll(args)[1..] == halves;
      if Clean(args[0].e) {
        CleanInOrder(args[0].e);
      } else if AllConcats(args[1..]) == 0 {
        NothingToLowerAll(args[1..]);
        NoneInOrder(args[1..]);
      }
    }
  }

  lemma {:induction false} CleanInOrder(e: Expr)
    requires Clean(e)
    ensures InOrder(e)
    decreases e, 1
  {
    match e
    case Lit(_) =>
    case Col(_) =>
    case Fn(_, args) => AllCleanInOrder(args);
    case Pipes(args) => AllCleanInOrder(args);
    case ConcatCall(_, args) => AllCleanInOrder(args);
  }

  lemma {:induction false} AllCleanInOrder(args: seq<Arg>)
    requires AllClean(args)
    ensures AllInOrder(args)
    decreases args, 0
  {
    if args != [] {
      CleanInOrder(args[0].e);
      AllCleanInOrder(args[1..]);
    }
  }

  lemma {:induction false} NoneInOrderOne(e: Expr)
    requires Concats(e) == 0
    ensures InOrder(e)
    decreases e, 1
  {
    match e
    case Lit(_) =>
    case Col(_) =>
    case Fn(_, args) => NoneInOrder(args);
    case Pipes(args) => NoneInOrder(args);
  }

  lemma {:induction false} NoneInOrder(args: seq<Arg>)
    requires AllConcats(args) == 0
    ensures AllInOrder(args)
    decreases args, 0
  {
    if args != [] {
      NoneInOrderOne(args[0].e);
      NoneInOrder(args[1..]);
    }
  }

  /** Lowering the rest of the half-lowered expression gives the lowered one. */
  lemma {:induction false} HalfLowers(e: Expr)
    ensures Lowered(Half(e)) == Lowered(e)
    decreases e, 1
  {
    match e
    case Lit(_) =>
    case Col(_) =>
    case Fn(_, args) => HalvesLower(args);
    case Pipes(args) => HalvesLower(args);
    case ConcatCall(_, args) =>
      HalvesLower(args);
      WrapConcats(HalfAll(args));
  }

  lemma {:induction false} HalvesLower(args: seq<Arg>)
    ensures AllLowered(HalfAll(args)) == AllLowered(args)
    decreases args, 0
  {
    if args != [] {
      var halves := if Clean(args[0].e) then HalfAll(args[1..]) else args[1..];
      assert HalfAll(args)[1..] == halves;
      HalvesLower(args[1..]);
      if Clean(args[0].e) {
        LoweredHasNone(args[0].e);
        NothingToLower(Lowered(args[0].e));
      } else {
        HalfLowers(args[0].e);
      }
    }
  }

  lemma {:induction false} HalfSound(e: Expr)
    requires Sound(e)
    ensures Sound(Half(e))
    decreases e, 1
  {
    match e
    case Lit(_) =>
    case Col(_) =>
    case Fn(_, args) => HalvesSound(args);
    case Pipes(args) => HalvesSound(args);
    case ConcatCall(_, args) =>
      HalvesSound(args);
      WrapSound(HalfAll(args));
  }

  lemma {:induction false} HalvesSound(args: seq<Arg>)
    requires AllSound(args)
    ensures AllSound(HalfAll(args))
    decreases args, 0
  {
    if args != [] {
      HalvesSound(args[1..]);
      HalfSound(args[0].e);
      LoweredIsLowest(args[0].e);
      assert HalfAll(args)[1..] == if Clean(args[0].e) then HalfAll(args[1..]) else args[1..];
    }
  }

  // ------------------------------------------------- what is printed first

  /** A CONCAT is printed before every literal with a readable call head. */
  ghost predicate CallFirst(e: Expr)
    decreases e, 1
  {
    match e
    case Lit(_) => false
    case Col(_) => false
    case Fn(_, args) => AnyCallFirst(args)
    case Pipes(args) => AnyCallFirst(args)
    case ConcatCall(_, _) => true
  }

  ghost predicate AnyCallFirst(args: seq<Arg>)
    decreases args, 0
  {
    args != [] && (CallFirst(args[0].e) || (Clean(args[0].e) && AnyCallFirst(args[1..])))
  }

  lemma {:induction false} NoneFirst(e: Expr)
    requires Concats(e) == 0
    ensures !CallFirst(e)
    decreases e, 1
  {
    match e
    case Lit(_) =>
    case Col(_) =>
    case Fn(_, args) => NoneFirstAll(args);
    case Pipes(args) => NoneFirstAll(args);
  }

  lemma {:induction false} NoneFirstAll(args: seq<Arg>)
    requires AllConcats(args) == 0
    ensures !AnyCallFirst(args)
    decreases args, 0
  {
    if args != [] {
      NoneFirst(args[0].e);
      NoneFirstAll(args[1..]);
    }
  }

  lemma {:induction false} WrapCallFirst(args: seq<Arg>)
    ensures AnyCallFirst(Wrap(args)) <==> AnyCallFirst(args)
  {
    if args != [] {
      var empty := Arg("", Lit(""), "");
      var inner := OrEmpty(args[0].e).args;
      assert inner[0].e == args[0].e && inner[1..] == [empty] && [empty][1..] == [];
      assert !AnyCallFirst([empty]);
      assert CallFirst(OrEmpty(args[0].e)) == AnyCallFirst(inner) == CallFirst(args[0].e);
      OrEmptyClean(args[0].e);
      WrapCallFirst(args[1..]);
      assert Wrap(args)[1..] == Wrap(args[1..]);
    }
  }

  /** Half-lowering leaves no CONCAT before the first unclean literal, and keeps the literals. */
  lemma {:induction false} HalfFirst(e: Expr)
    ensures !CallFirst(Half(e)) && (Clean(Half(e)) <==> Clean(e))
    decreases e, 1
  {
    match e
    case Lit(_) =>
    case Col(_) =>
    case Fn(_, args) => HalvesFirst(args);
    case Pipes(args) => HalvesFirst(args);
    case ConcatCall(_, args) =>
      HalvesFirst(args);
      WrapCallFirst(HalfAll(args));
      WrapClean(HalfAll(args));
  }

  lemma {:induction false} HalvesFirst(args: seq<Arg>)
    ensures !AnyCallFirst(HalfAll(args)) && (AllClean(HalfAll(args)) <==> AllClean(args))
    decreases args, 0
  {
    if args != [] {
      assert HalfAll(args)[1..] == if Clean(args[0].e) then HalfAll(args[1..]) else args[1..];
      if Clean(args[0].e) {
        LoweredHasNone(args[0].e);
        NoneFirst(Lowered(args[0].e));
        LoweredClean(args[0].e);
        HalvesFirst(args[1..]);
      } else {
        HalfFirst(args[0].e);
      }
    }
  }

  // ------------------------------------------- where the two texts first differ

  /** The head of a call can be read in the text, wherever it stands. */
  predicate Readable(t: string) {
    Find(t, CONCAT, false) < |t|
  }

  lemma FindAtBoundary(t: string)
    ensures Find(t, CONCAT, true) <= Find(t, CONCAT, false)
  {
  }

  lemma {:induction false} FindInFront(t: string, b: string, boundary: bool)
    requires Find(t, CONCAT, boundary) < |t|
    ensures Find(t + b, CONCAT, boundary) <= Find(t, CONCAT, boundary)
    decreases |t|
  {
    hide Head;
    assert (t + b)[1..] == t[1..] + b;
    if boundary && Head(t, CONCAT) >= 0 {
      HeadMore(t, b, CONCAT);
    } else {
      FindInFront(t[1..], b, !IsWord(t[0]));
    }
  }

  lemma {:induction false} FindBehind(a: string, t: string, boundary: bool)
    requires Readable(t)
    ensures Find(a + t, CONCAT, boundary) <= |a| + Find(t, CONCAT, false)
    decreases |a|
  {
    hide Head;
    if a == [] {
      assert a + t == t;
      FindAtBoundary(t);
    } else {
      assert (a + t)[1..] == a[1..] + t;
      FindBehind(a[1..], t, !IsWord(a[0]));
    }
  }

  lemma ReadableInside(a: string, t: string, b: string)
    requires Readable(t)
    ensures Readable(a + (t + b))
  {
    hide Find;
    FindInFront(t, b, false);
    FindBehind(a, t + b, false);
  }

  lemma UncleanLiteral(s: string)
    requires !NoCall(SqlStringLiteral(s), CONCAT)
    ensures Readable(SqlStringLiteral(s))
  {
    hide DoubleQuotes;
    assert CONCAT[0] == 'c' && !Spells(SqlStringLiteral(s), CONCAT);
  }

  lemma {:induction false} UncleanIsReadable(e: Expr)
    requires !Clean(e)
    ensures Readable(Print(e))
    decreases e, 1
  {
    hide Find;
    match e
    case Lit(s) => UncleanLiteral(s);
    case Fn(name, args) =>
      UncleanAreReadable(args, ",");
      ReadableInside(name + "(", Join(Prints(args), ","), ")");
      Assoc(name, "(", Join(Prints(args), ",") + ")");
    case Pipes(args) =>
      UncleanAreReadable(args, PIPES);
      ReadableInside("(", Join(Prints(args), PIPES), ")");
    case ConcatCall(head, args) =>
      UncleanAreReadable(args, ",");
      ReadableInside(head + "(", Join(Prints(args), ","), ")");
      Assoc(head, "(", Join(Prints(args), ",") + ")");
  }

  /** The first operand and the others. */
  lemma JoinedPrints(args: seq<Arg>, sep: string)
    requires args != []
    ensures var rest := Join(Prints(args[1..]), sep);
            Join(Prints(args), sep) == if |args| == 1 then PrintArg(args[0]) else PrintArg(args[0]) + (sep + rest)
  {
    assert Prints(args)[1..] == Prints(args[1..]);
  }

  lemma {:induction false} UncleanAreReadable(args: seq<Arg>, sep: string)
    requires !AllClean(args)
    ensures Readable(Join(Prints(args), sep))
    decreases args, 0
  {
    hide Readable, Prints, Join;
    var a := args[0];
    var rest := Join(Prints(args[1..]), sep);
    JoinedPrints(args, sep);
    if !Clean(a.e) {
      UncleanIsReadable(a.e);
      ReadableInside(a.lead, Print(a.e), a.trail);
      ReadableBefore(PrintArg(a), sep + rest);
    } else {
      UncleanAreReadable(args[1..], sep);
      ReadableAfter(PrintArg(a), sep, rest);
    }
  }

  lemma ReadableBefore(t: string, b: string)
    requires Readable(t)
    ensures Readable(t + b)
  {
    hide Find;
    ReadableInside("", t, b);
    assert "" + (t + b) == t + b;
  }

  lemma ReadableAfter(a: string, sep: string, t: string)
    requires Readable(t)
    ensures Readable(a + (sep + t)) && Readable(a + t)
  {
    hide Find;
    ReadableInside(a, t, "");
    ReadableInside(a + sep, t, "");
    assert t + "" == t;
    Assoc(a, sep, t);
  }

  /** Two texts that agree up to where one has the head of a CONCAT and the other a parenthesis. */
  datatype Fork = Fork(common: string, text: string, lowered: string) {
    predicate Valid() {
      text != "" && Folds(text[0], 'c') && lowered != "" && lowered[0] == '('
    }

    predicate Of(s: string, t: string) {
      Valid() && s == common + text && t == common + lowered
    }
  }

  lemma ForkInside(f: Fork, a: string, s: string, t: string, b: string, c: string) returns (g: Fork)
    requires f.Of(s, t)
    ensures g.Of(a + (s + b), a + (t + c)) && g.common == a + f.common
  {
    g := Fork(a + f.common, f.text + b, f.lowered + c);
    Assoc(f.common, f.text, b);
    Assoc(f.common, f.lowered, c);
    Assoc(a, f.common, f.text + b);
    Assoc(a, f.common, f.lowered + c);
  }

  /** A printed expression with a CONCAT and the printed lowered one fork at the first CONCAT; when a
      literal with a readable call head is printed before it, the common part is readable. */
  lemma {:induction false} Forks(e: Expr) returns (f: Fork)
    requires Sound(e) && Concats(e) > 0
    ensures f.Of(Print(e), Print(Lowered(e))) && (!CallFirst(e) ==> Readable(f.common))
    decreases e, 1
  {
    hide Find;
    match e
    case Fn(name, args) =>
      var g := ForksAll(args, ",");
      f := ForkInside(g, name + "(", Join(Prints(args), ","), Join(Prints(AllLowered(args)), ","), ")", ")");
      Assoc(name, "(", Join(Prints(args), ",") + ")");
      Assoc(name, "(", Join(Prints(AllLowered(args)), ",") + ")");
      if !CallFirst(e) {
        ReadableInside(name + "(", g.common, "");
        assert g.common + "" == g.common;
      }
    case Pipes(args) =>
      var g := ForksAll(args, PIPES);
      f := ForkInside(g, "(", Join(Prints(args), PIPES), Join(Prints(AllLowered(args)), PIPES), ")", ")");
      if !CallFirst(e) {
        ReadableInside("(", g.common, "");
        assert g.common + "" == g.common;
      }
    case ConcatCall(head, args) =>
      f := Fork("", Print(e), Print(Lowered(e)));
      ConcatIsKeyword();
      SpelledLetters(head, CONCAT, 0);
      assert Print(e)[0] == head[0] && "" + Print(e) == Print(e) && "" + Print(Lowered(e)) == Print(Lowered(e));
  }

  lemma {:induction false} ForksAll(args: seq<Arg>, sep: string) returns (f: Fork)
    requires AllSound(args) && AllConcats(args) > 0
    ensures f.Of(Join(Prints(args), sep), Join(Prints(AllLowered(args)), sep))
    ensures !AnyCallFirst(args) ==> Readable(f.common)
    decreases args, 0
  {
    hide Readable, Join, Prints, Print;
    var a, low := args[0], args[0].(e := Lowered(args[0].e));
    var rest, lowRest := Join(Prints(args[1..]), sep), Join(Prints(AllLowered(args[1..])), sep);
    JoinedPrints(args, sep);
    JoinedPrints(AllLowered(args), sep);
    assert AllLowered(args)[0] == low && AllLowered(args)[1..] == AllLowered(args[1..]);
    if Concats(a.e) > 0 {
      var g := Forks(a.e);
      f := ForkOfArg(g, a, low, if |args| == 1 then "" else sep + rest, if |args| == 1 then "" else sep + lowRest);
      assert PrintArg(a) + "" == PrintArg(a) && PrintArg(low) + "" == PrintArg(low);
      if !AnyCallFirst(args) {
        ReadableAfter(a.lead, "", g.common);
      }
    } else {
      NothingToLower(a.e);
      var g := ForksAll(args[1..], sep);
      f := ForkLater(g, PrintArg(a), sep, rest, lowRest);
      if !AnyCallFirst(args) {
        LaterIsReadable(a, args[1..], sep, g.common);
      }
    }
  }

  lemma ForkOfArg(g: Fork, a: Arg, low: Arg, more: string, lowMore: string) returns (f: Fork)
    requires g.Of(Print(a.e), Print(low.e)) && low.lead == a.lead && low.trail == a.trail
    ensures f.Of(PrintArg(a) + more, PrintArg(low) + lowMore) && f.common == a.lead + g.common
  {
    hide Print;
    f := ForkInside(g, a.lead, Print(a.e), Print(low.e), a.trail + more, low.trail + lowMore);
    Assoc(Print(a.e), a.trail, more);
    Assoc(a.lead, Print(a.e) + a.trail, more);
    Assoc(Print(low.e), low.trail, lowMore);
    Assoc(low.lead, Print(low.e) + low.trail, lowMore);
  }

  lemma ForkLater(g: Fork, first: string, sep: string, rest: string, lowRest: string) returns (f: Fork)
    requires g.Of(rest, lowRest)
    ensures f.Of(first + (sep + rest), first + (sep + lowRest)) && f.common == first + (sep + g.common)
  {
    f := ForkInside(g, first + sep, rest, lowRest, "", "");
    assert rest + "" == rest && lowRest + "" == lowRest;
    Assoc(first, sep, rest);
    Assoc(first, sep, lowRest);
    Assoc(first, sep, g.common);
  }

  lemma LaterIsReadable(a: Arg, rest: seq<Arg>, sep: string, common: string)
    requires Concats(a.e) == 0 && (!Clean(a.e) || !AnyCallFirst(rest)) && (!AnyCallFirst(rest) ==> Readable(common))
    ensures Readable(PrintArg(a) + (sep + common))
  {
    hide Readable, Print;
    if !Clean(a.e) {
      UncleanIsReadable(a.e);
      ReadableInside(a.lead, Print(a.e), a.trail);
      ReadableBefore(PrintArg(a), sep + common);
    } else {
      ReadableAfter(PrintArg(a), sep, common);
    }
  }

  // ------------------------------------------------------ a difference stays

  /** The texts agree before d; there t has the parenthesis a pass wrote and u a letter c. */
  predicate DiffersAt(t: string, u: string, d: nat) {
    d < |t| && d < |u| && t[..d] == u[..d] && t[d] == '(' && Folds(u[d], 'c')
  }

  /** A pass writes a parenthesis where the first call stood and keeps what is before it. */
  lemma PassWrites(t: string) returns (k: nat)
    requires FirstCall(t, CONCAT).Some?
    ensures k < |t| && Folds(t[k], 'c') && k == Find(t, CONCAT, true)
    ensures Pass(t).Some? && k < |Pass(t).value| && Pass(t).value[..k] == t[..k] && Pass(t).value[k] == '('
  {
    hide Find, Head, Match, Terms;
    var c := FirstCall(t, CONCAT).value;
    FirstCallText(t, CONCAT);
    ConcatIsKeyword();
    SpelledLetters(c.head, CONCAT, 0);
    k := |c.pre|;
    FirstCallStart(t);
    Front(c.pre, "(" + (Terms(Split(c.body)) + (")" + c.post)));
    Front(c.pre, c.head + ("(" + (c.body + (")" + c.post))));
    assert t[k] == c.head[0];
  }

  lemma FirstCallStart(t: string)
    requires FirstCall(t, CONCAT).Some?
    ensures |FirstCall(t, CONCAT).value.pre| == Find(t, CONCAT, true)
  {
    hide Find, Head, Match;
    PlaceInText(t, CONCAT);
  }

  /** Every later pass keeps a difference or makes an earlier one. */
  lemma {:induction false} DifferenceStays(t: string, u: string, d: nat)
    requires DiffersAt(t, u, d)
    ensures !(u <= Rewritten(t))
    decreases Occurrences(t)
  {
    hide Find, FirstCall, Replaced, Occurrences;
    if FirstCall(t, CONCAT) == None {
      assert Rewritten(t) == t && t[d] != u[d];
    } else {
      var k := PassWrites(t);
      var next := Pass(t).value;
      PassShrinks(t);
      if k < d {
        assert next[..k] == t[..d][..k] == u[..k] && t[k] == t[..d][k] == u[k];
        DifferenceStays(next, u, k);
      } else {
        assert k != d;
        assert next[..d] == next[..k][..d] == t[..k][..d] == t[..d] && next[d] == next[..k][d] == t[..k][d] == t[d];
        DifferenceStays(next, u, d);
      }
    }
  }

  /** A rewritten text does not start like the original up to beyond a first call that is closed. */
  lemma FirstCallIsLost(t: string, u: string)
    requires FirstCall(t, CONCAT).Some? && Find(t, CONCAT, true) < |u|
    requires u[..Find(t, CONCAT, true)] == t[..Find(t, CONCAT, true)] && u[Find(t, CONCAT, true)] == t[Find(t, CONCAT, true)]
    ensures !(u <= Rewritten(t))
  {
    hide Find, FirstCall, Occurrences;
    var k := PassWrites(t);
    PassShrinks(t);
    DifferenceStays(Pass(t).value, u, k);
  }

  // ------------------------------------------------------------- the theorems

  lemma ReadableFirst(t: string, b: string)
    requires Readable(t)
    ensures Find(t + b, CONCAT, true) < |t|
  {
    FindAtBoundary(t);
    FindInFront(t, b, true);
  }

  lemma HalfRewritten(e: Expr)
    requires Sound(e)
    ensures Rewritten(Print(e)) == Rewritten(Print(Half(e)))
  {
    hide Rewritten;
    ClearMarks("");
    RewritesHalf("", e, "");
    assert "" + (Print(e) + "") == Print(e);
    assert "" + (Print(Half(e)) + "") == Print(Half(e));
  }

  /** The rewritten text of an expression is the text of the lowered expression exactly when no literal
      with a readable call head is printed before a CONCAT and no closed call is first in the result. */
  lemma RewriteLowers(e: Expr)
    requires Sound(e)
    ensures Rewritten(Print(e)) == Print(Lowered(e)) <==> InOrder(e) && FirstCall(Print(Lowered(e)), CONCAT) == None
  {
    if InOrder(e) {
      HalfRewritten(e);
      HalfInOrder(e);
      FixedPoint(Print(Lowered(e)));
    } else {
      ClearMarks("");
      OutOfOrderInText("", e, "");
      assert "" + (Print(e) + "") == Print(e) && "" + Print(Lowered(e)) == Print(Lowered(e));
    }
  }

  /** In a clear context an expression in order is lowered as a whole. */
  lemma RewritesInPlace(pre: string, e: Expr, post: string)
    requires Clear(pre) && Sound(e) && InOrder(e)
    ensures Rewritten(pre + (Print(e) + post)) == Rewritten(pre + (Print(Lowered(e)) + post))
  {
    hide Rewritten;
    RewritesHalf(pre, e, post);
    HalfInOrder(e);
  }

  /** Without such literals the conditions hold. */
  lemma CleanIsRewritten(e: Expr)
    requires Sound(e) && Clean(e)
    ensures InOrder(e) && FirstCall(Print(Lowered(e)), CONCAT) == None
  {
    CleanInOrder(e);
    LoweredIsLowest(e);
    LoweredClean(e);
    LowestHasNoCall(Lowered(e));
  }

  lemma LowestHasNoCall(e: Expr)
    requires Sound(e) && Lowest(e) && Clean(e)
    ensures NoCall(Print(e), CONCAT)
  {
    AfterTrail("", ")");
    assert "" + ")" == ")";
    ClearAfter(e, ")");
    Assoc(Print(e), ")", "(");
    NoCallPrefix(Print(e), ")" + "(", CONCAT, true);
  }

  /** Exactly under those conditions, and always when no literal holds a readable call head, the
      rewritten text is that of an expression without CONCAT that has the same value in every environment. */
  lemma RewriteKeepsMeaning(env: Env, e: Expr)
    requires Sound(e)
    ensures Rewritten(Print(e)) == Print(Lowered(e)) <==> InOrder(e) && FirstCall(Print(Lowered(e)), CONCAT) == None
    ensures Clean(e) ==> Rewritten(Print(e)) == Print(Lowered(e))
    ensures Sound(Lowered(e)) && Concats(Lowered(e)) == 0 && Eval(env, Lowered(e)) == Eval(env, e)
  {
    hide Rewritten, FirstCall, InOrder;
    RewriteLowers(e);
    if Clean(e) {
      CleanIsRewritten(e);
    }
    LoweringKeepsValue(env, e);
    LoweredHasNone(e);
  }

  // -------------------------------------------------------- a literal in a text

  /** What is before the first call stays. */
  lemma {:induction false} ClearStays(pre: string, t: string)
    requires Clear(pre)
    ensures pre <= Rewritten(pre + t)
    decreases Occurrences(pre + t)
  {
    hide Find, FirstCall, Occurrences, Replaced;
    var q := pre + t;
    if FirstCall(q, CONCAT).Some? {
      var k := PassWrites(q);
      var next := Pass(q).value;
      PassShrinks(q);
      NotBefore(pre, t);
      assert next[..|pre|] == next[..k][..|pre|] == q[..k][..|pre|] == q[..|pre|] == pre;
      Take(next, |pre|);
      ClearStays(pre, next[|pre|..]);
    }
  }

  lemma NotBefore(pre: string, t: string)
    requires Clear(pre)
    ensures Find(pre + t, CONCAT, true) >= |pre|
  {
    FindAfterClear(pre, t, true);
  }

  /** After text that is clear, and whatever follows, a literal survives exactly when no call head can be
      read in it, or the first that can is never closed; then the whole text is left alone. */
  lemma LiteralSurvives(pre: string, s: string, post: string)
    requires Clear(pre)
    ensures var lit := SqlStringLiteral(s); var q := pre + (lit + post);
            && (pre + lit <= Rewritten(q) <==> NoCall(lit, CONCAT) || FirstCall(q, CONCAT) == None)
            && (FirstCall(q, CONCAT) == None ==> Rewritten(q) == q)
  {
    hide Find, FirstCall, Occurrences, NoCall, Clear, DoubleQuotes;
    var lit := SqlStringLiteral(s);
    var q := pre + (lit + post);
    Assoc(pre, lit, post);
    FixedPoint(q);
    if NoCall(lit, CONCAT) {
      assert lit[|lit| - 1] == '\'';
      ClearSolid(lit);
      ClearPair(pre, lit);
      ClearStays(pre + lit, post);
    } else if FirstCall(q, CONCAT).Some? {
      UncleanLiteral(s);
      FoundWithin(pre, lit, post);
      var k := Find(q, CONCAT, true);
      Front(pre + lit, post);
      assert (pre + lit)[..k] == q[..|pre + lit|][..k] == q[..k];
      FirstCallIsLost(q, pre + lit);
    }
  }

  lemma FoundWithin(a: string, t: string, b: string)
    requires Readable(t)
    ensures Find(a + (t + b), CONCAT, true) < |a| + |t|
  {
    hide Find;
    FindInFront(t, b, false);
    FindBehind(a, t + b, true);
  }

  // ------------------------------------------------- an expression in a text

  lemma OutOfOrderInText(pre: string, e: Expr, post: string)
    requires Clear(pre) && Sound(e) && !InOrder(e)
    ensures !(pre + Print(Lowered(e)) <= Rewritten(pre + (Print(e) + post)))
  {
    hide Find, FirstCall, Readable, Clear, Rewritten;
    var h := Half(e);
    RewritesHalf(pre, e, post);
    HalfInOrder(e);
    HalfSound(e);
    HalfFirst(e);
    HalfLowers(e);
    var f := Forks(h);
    var g := ForkInside(f, pre, Print(h), Print(Lowered(e)), post, "");
    ReadableInside(pre, f.common, "");
    assert f.common + "" == f.common && Print(Lowered(e)) + "" == Print(Lowered(e));
    ForkIsLost(g, pre + (Print(h) + post), pre + Print(Lowered(e)));
  }

  /** A readable call before the fork keeps the rewritten text from starting like the lowered one. */
  lemma ForkIsLost(f: Fork, t: string, u: string)
    requires f.Of(t, u) && Readable(f.common)
    ensures !(u <= Rewritten(t))
  {
    hide Find, FirstCall, Readable, Rewritten;
    ReadableFirst(f.common, f.text);
    Front(f.common, f.text);
    Front(f.common, f.lowered);
    assert t[|f.common|] == f.text[0] && u[|f.common|] == f.lowered[0] && f.text[0] != f.lowered[0];
    if FirstCall(t, CONCAT) == None {
      FixedPoint(t);
    } else {
      var k := Find(t, CONCAT, true);
      assert t[..k] == t[..|f.common|][..k] && u[..k] == u[..|f.common|][..k];
      FirstCallIsLost(t, u);
    }
  }

  lemma EndsSolid(e: Expr)
    requires !e.Col?
    ensures var t := Print(e); t != "" && !IsFoldedWord(t[|t| - 1]) && !IsBlank(t[|t| - 1])
  {
    hide DoubleQuotes;
  }

  /** Wherever an expression stands in a text that is clear before it: it comes out lowered exactly when
      no literal with a readable call head is printed before one of its CONCATs, and the lowered
      expression holds no call head or the first call of the text is then never closed. */
  lemma LowersInText(pre: string, e: Expr, post: string)
    requires Clear(pre) && Sound(e) && !e.Col?
    ensures var low := Print(Lowered(e));
            pre + low <= Rewritten(pre + (Print(e) + post)) <==>
            InOrder(e) && (NoCall(low, CONCAT) || FirstCall(pre + (low + post), CONCAT) == None)
  {
    hide Find, FirstCall, Clear, NoCall, Rewritten, InOrder;
    var low := Print(Lowered(e));
    if !InOrder(e) {
      OutOfOrderInText(pre, e, post);
    } else {
      RewritesInPlace(pre, e, post);
      EndsSolid(Lowered(e));
      Assoc(pre, low, post);
      var q := pre + (low + post);
      FixedPoint(q);
      if NoCall(low, CONCAT) {
        ClearSolid(low);
        ClearPair(pre, low);
        ClearStays(pre + low, post);
      } else if FirstCall(q, CONCAT).Some? {
        FirstInside(pre, low, post);
        Front(pre + low, post);
        var k := Find(q, CONCAT, true);
        assert (pre + low)[..k] == q[..|pre + low|][..k] == q[..k];
        FirstCallIsLost(q, pre + low);
      }
    }
  }

  lemma FirstInside(pre: string, t: string, post: string)
    requires Clear(pre) && !NoCall(t, CONCAT)
    ensures Find(pre + (t + post), CONCAT, true) < |pre| + |t|
  {
    FindAfterClear(pre, t + post, true);
    FindInFront(t, post, true);
  }

  // --------------------------------------------------------------- two inputs

  lemma MarksBeforeCall(t: string)
    requires forall i :: 0 <= i < |t| ==> !IsFoldedWord(t[i])
    ensures NoCall(t, CONCAT) && (t == "" || !IsFoldedWord(t[|t| - 1]))
  {
    ClearMarks(t);
    NoCallPrefix(t, "(", CONCAT, true);
  }

  const OPENING := "'concat('"

  lemma OpeningIsUnclean()
    ensures SqlStringLiteral("concat(") == OPENING && !NoCall(OPENING, CONCAT)
  {
    hide Find, CallHead, DoubleQuotes;
    NothingToDouble("concat(");
    assert "'" + ("concat(" + "'") == OPENING;
    MarksBeforeCall("'");
    SpellsSelf();
    ConcatIsKeyword();
    FindPrinted("'", CONCAT, "'", CONCAT);
    assert "'" + (CONCAT + ("(" + "'")) == OPENING;
  }

  /** Text in which only a quote follows the parenthesis of the first call: the call is never closed. */
  lemma NeverClosed(t: string)
    requires '\'' !in t
    ensures FirstCall("'concat('" + t, CONCAT) == None
  {
    hide Find, Head, Match, Reach, CallHead, NoCall, FirstCall;
    ConcatIsKeyword();
    MarksBeforeCall("'");
    SpellsSelf();
    QuoteRunsOn(t, State(1, false));
    UnclosedCall("'", CONCAT, "'" + t, CONCAT);
    assert "'" + (CONCAT + ("(" + ("'" + t))) == "'concat('" + t;
  }

  /** The literal stops the rewriter: a CONCAT after it reaches the engine. */
  lemma LiteralStopsRewriting()
    ensures Rewritten("'concat(', CONCAT(a,b)") == "'concat(', CONCAT(a,b)"
  {
    hide FirstCall, Rewritten;
    var rest := ", CONCAT(a,b)";
    NeverClosed(rest);
    assert "'concat('" + rest == "'concat(', CONCAT(a,b)";
    FixedPoint("'concat(', CONCAT(a,b)");
  }

  /** Alone the literal 'concat(' survives; in ('concat(' || f(')')) a later literal closes its call,
      and it does not. */
  lemma LiteralLostInStatement()
    ensures Rewritten("'concat('") == "'concat('"
    ensures !("('concat('" <= Rewritten("('concat(' || f(')'))"))
  {
    hide *;
    AloneSurvives();
    OpeningIsUnclean();
    BracketIsClear();
    LiteralSurvives("(", "concat(", " || f(')'))");
    ClosedLater();
  }

  lemma AloneSurvives()
    ensures Rewritten("'concat('") == "'concat('"
  {
    hide *;
    NeverClosed("");
    assert "'concat('" + "" == "'concat('";
    FixedPoint("'concat('");
  }

  lemma BracketIsClear()
    ensures Clear("(") && "(" + OPENING == "('concat('"
  {
    hide Clear;
    ClearMarks("(");
  }

  lemma ClosedLater()
    ensures "(" + (OPENING + " || f(')'))") == "('concat(' || f(')'))"
    ensures FirstCall("('concat(' || f(')'))", CONCAT).Some?
  {
    hide FirstCall, Find, Clear, Balanced, NoCall, CallHead;
    ClosedLaterText();
    OpeningText();
    var c := Call("('", CONCAT, "' || f('", "'))");
    ConcatIsKeyword();
    MarksBeforeCall("('");
    SpellsSelf();
    QuotedBody(" || f(");
    assert "'" + (" || f(" + "'") == "' || f('";
    FirstPrintedCall(c, CONCAT);
  }

  lemma OpeningText()
    ensures "(" + (OPENING + " || f(')'))") == "('concat(' || f(')'))"
  {
  }

  lemma QuotedBody(t: string)
    requires '\'' !in t
    ensures Balanced("'" + (t + "'"))
  {
    hide DoubleQuotes, Cut, Scan, Stays;
    NothingToDouble(t);
    LiteralIsArgument(t);
    assert SqlStringLiteral(t) == "'" + (t + "'");
  }

  lemma ClosedLaterText()
    ensures Call("('", CONCAT, "' || f('", "'))").Text() == "('concat(' || f(')'))"
  {
  }

  /** The string 'concat(a)' does not survive: calls are also read inside literals. */
  lemma LiteralWithCallIsRewritten()
    ensures Rewritten(SqlStringLiteral(CONCAT + "(a)")) != SqlStringLiteral(CONCAT + "(a)")
  {
    var c := Call("'", CONCAT, "a", "'");
    ConcatIsKeyword();
    NothingToDouble(CONCAT + "(a)");
    Assoc(CONCAT, "(a)", "'");
    assert "(a)" + "'" == "(" + ("a" + (")" + "'"));
    assert c.Text() == SqlStringLiteral(CONCAT + "(a)");
    MarksBeforeCall("'");
    NamePlain("a");
    SpellsSelf();
    FirstPrintedCall(c, CONCAT);
    FixedPoint(c.Text());
  }

  lemma SpellsSelf()
    ensures CallHead(CONCAT, CONCAT)
  {
  }
}

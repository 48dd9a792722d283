/** What rewriteConcat does to expressions: the rewritten text is the text of the
    expression with every CONCAT lowered, and lowering keeps the value. */
module ConcatMeaning {
  import opened Text
  import opened Scanner
  import opened CallPattern
  import opened Literal
  import opened Concat

  // ------------------------------------------------------------- expressions

  datatype Expr =
    | Lit(s: string)
    | Col(name: string)
    | Fn(name: string, args: seq<Arg>)
    | Pipes(args: seq<Arg>)
    | ConcatCall(head: string, args: seq<Arg>)

  /** An operand with the white space around it. */
  datatype Arg = Arg(lead: string, e: Expr, trail: string)

  function Print(e: Expr): string
    decreases e, 1
  {
    match e
    case Lit(s) => SqlStringLiteral(s)
    case Col(name) => name
    case Fn(name, args) => name + ("(" + (Join(Prints(args), ",") + ")"))
    case Pipes(args) => "(" + (Join(Prints(args), " || ") + ")")
    case ConcatCall(head, args) => head + ("(" + (Join(Prints(args), ",") + ")"))
  }

  function Prints(args: seq<Arg>): (r: seq<string>)
    ensures |r| == |args|
    decreases args, 0
  {
    if args == [] then [] else [PrintArg(args[0])] + Prints(args[1..])
  }

  function PrintArg(a: Arg): string
    decreases a
  {
    a.lead + (Print(a.e) + a.trail)
  }

  predicate IsName(name: string) {
    name != "" && forall i :: 0 <= i < |name| ==> IsWord(name[i])
  }

  /** Names are words, a function is not named CONCAT, and CONCAT has an argument; literals are
      over any characters. */
  predicate Sound(e: Expr)
    decreases e, 1
  {
    match e
    case Lit(_) => true
    case Col(name) => IsName(name)
    case Fn(name, args) => IsName(name) && ToLower(name) != CONCAT && AllSound(args)
    case Pipes(args) => args != [] && AllSound(args)
    case ConcatCall(head, args) => CallHead(head, CONCAT) && args != [] && AllSound(args)
  }

  predicate AllSound(args: seq<Arg>)
    decreases args, 0
  {
    args == [] || (AllSpace(args[0].lead) && AllSpace(args[0].trail) && Sound(args[0].e) && AllSound(args[1..]))
  }

  // ---------------------------------------------------------------- lowering

  /** COALESCE(e,'') */
  function OrEmpty(e: Expr): Expr {
    Fn("COALESCE", [Arg("", e, ""), Arg("", Lit(""), "")])
  }

  function Wrap(args: seq<Arg>): seq<Arg> {
    if args == [] then [] else [Arg("", OrEmpty(args[0].e), "")] + Wrap(args[1..])
  }

  /** Every CONCAT becomes a chain of || over its arguments, NULLs made empty. */
  function Lowered(e: Expr): Expr
    decreases e, 1
  {
    match e
    case Lit(_) => e
    case Col(_) => e
    case Fn(name, args) => Fn(name, AllLowered(args))
    case Pipes(args) => Pipes(AllLowered(args))
    case ConcatCall(_, args) => Pipes(Wrap(AllLowered(args)))
  }

  function AllLowered(args: seq<Arg>): (r: seq<Arg>)
    ensures |r| == |args|
    decreases args, 0
  {
    if args == [] then [] else [args[0].(e := Lowered(args[0].e))] + AllLowered(args[1..])
  }

  // ------------------------------------------------------------------- values

  datatype Value = Null | Chars(s: string)

  datatype Env = Env(col: string -> Value, fn: (string, seq<Value>) -> Value)

  /** The operator ||, which is NULL when an operand is. */
  function Pipe(a: Value, b: Value): Value {
    if a.Null? || b.Null? then Null else Chars(a.s + b.s)
  }

  function PipeAll(vs: seq<Value>): Value
    requires vs != []
  {
    if |vs| == 1 then vs[0] else Pipe(PipeAll(vs[..|vs| - 1]), vs[|vs| - 1])
  }

  /** PostgreSQL's CONCAT (PostgreSQL 14 documentation, section 9.4): NULL arguments are ignored. */
  function ConcatAll(vs: seq<Value>): (r: Value)
    ensures r.Chars?
  {
    if vs == [] then Chars("")
    else if vs[0].Null? then ConcatAll(vs[1..])
    else Chars(vs[0].s + ConcatAll(vs[1..]).s)
  }

  function FirstNonNull(vs: seq<Value>): Value {
    if vs == [] then Null else if vs[0].Chars? then vs[0] else FirstNonNull(vs[1..])
  }

  function Eval(env: Env, e: Expr): Value
    requires Sound(e)
    decreases e, 1
  {
    match e
    case Lit(s) => Chars(s)
    case Col(name) => env.col(name)
    case Fn(name, args) =>
      if ToUpper(name) == "COALESCE" then FirstNonNull(EvalAll(env, args)) else env.fn(name, EvalAll(env, args))
    case Pipes(args) => PipeAll(EvalAll(env, args))
    case ConcatCall(_, args) => ConcatAll(EvalAll(env, args))
  }

  function EvalAll(env: Env, args: seq<Arg>): (vs: seq<Value>)
    requires AllSound(args)
    ensures |vs| == |args|
    decreases args, 0
  {
    if args == [] then [] else [Eval(env, args[0].e)] + EvalAll(env, args[1..])
  }

  /** NULL as the empty string. */
  function EmptyIfNull(v: Value): Value {
    if v.Null? then Chars("") else v
  }

  function AllEmptyIfNull(vs: seq<Value>): (r: seq<Value>)
    ensures |r| == |vs|
  {
    if vs == [] then [] else [EmptyIfNull(vs[0])] + AllEmptyIfNull(vs[1..])
  }

  lemma {:induction false} PipeAllCons(v: Value, vs: seq<Value>)
    requires v.Chars? && vs != [] && PipeAll(vs).Chars?
    ensures PipeAll([v] + vs) == Chars(v.s + PipeAll(vs).s)
  {
    var all := [v] + vs;
    if |vs| == 1 {
      assert all[..|all| - 1] == [v];
    } else {
      var front, last := vs[..|vs| - 1], vs[|vs| - 1];
      assert all[..|all| - 1] == [v] + front;
      PipeAllCons(v, front);
      Assoc(v.s, PipeAll(front).s, last.s);
    }
  }

  /** The chain of || over operands made non-NULL is CONCAT of the operands. */
  lemma {:induction false} ChainIsConcat(vs: seq<Value>)
    requires vs != []
    ensures PipeAll(AllEmptyIfNull(vs)) == ConcatAll(vs)
  {
    if |vs| > 1 {
      ChainIsConcat(vs[1..]);
      PipeAllCons(EmptyIfNull(vs[0]), AllEmptyIfNull(vs[1..]));
      assert "" + ConcatAll(vs[1..]).s == ConcatAll(vs[1..]).s;
    } else {
      assert ConcatAll(vs[1..]) == Chars("");
      assert vs[0].Chars? ==> vs[0].s + "" == vs[0].s;
    }
  }

  lemma CoalesceName()
    ensures ToUpper("COALESCE") == "COALESCE" && IsName("COALESCE") && ToLower("COALESCE") != CONCAT
  {
  }

  lemma EmptyLiteralSound()
    ensures Sound(Lit("")) && Print(Lit("")) == "''"
  {
  }

  lemma OrEmptySound(e: Expr)
    requires Sound(e)
    ensures Sound(OrEmpty(e))
  {
    CoalesceName();
    EmptyLiteralSound();
    var args := OrEmpty(e).args;
    assert args[1..] == [Arg("", Lit(""), "")] && args[1..][1..] == [];
    assert AllSound([Arg("", Lit(""), "")]);
  }

  lemma OrEmptyValue(env: Env, e: Expr)
    requires Sound(e) && Sound(OrEmpty(e))
    ensures Eval(env, OrEmpty(e)) == EmptyIfNull(Eval(env, e))
  {
    CoalesceName();
    var args := OrEmpty(e).args;
    assert args[1..] == [Arg("", Lit(""), "")] && args[1..][1..] == [];
    var vs := EvalAll(env, args);
    assert vs == [Eval(env, e)] + EvalAll(env, args[1..]);
    assert EvalAll(env, args[1..]) == [Eval(env, Lit(""))];
    assert vs[1..] == [Chars("")];
    assert FirstNonNull(vs[1..]) == Chars("");
    assert Eval(env, OrEmpty(e)) == FirstNonNull(vs);
  }

  lemma {:induction false} WrapSound(args: seq<Arg>)
    requires AllSound(args)
    ensures AllSound(Wrap(args)) && |Wrap(args)| == |args|
  {
    if args != [] {
      OrEmptySound(args[0].e);
      WrapSound(args[1..]);
      assert Wrap(args)[1..] == Wrap(args[1..]);
    }
  }

  lemma {:induction false} WrapValues(env: Env, args: seq<Arg>)
    requires AllSound(args) && AllSound(Wrap(args))
    ensures EvalAll(env, Wrap(args)) == AllEmptyIfNull(EvalAll(env, args))
  {
    if args != [] {
      var w := Wrap(args);
      assert w[1..] == Wrap(args[1..]);
      OrEmptyValue(env, args[0].e);
      WrapValues(env, args[1..]);
      assert EvalAll(env, args)[1..] == EvalAll(env, args[1..]);
    }
  }

  /** Lowering keeps the value of every expression in every environment. */
  lemma {:induction false} LoweringKeepsValue(env: Env, e: Expr)
    requires Sound(e)
    ensures Sound(Lowered(e)) && Eval(env, Lowered(e)) == Eval(env, e)
    decreases e, 1
  {
    match e
    case Lit(_) =>
    case Col(_) =>
    case Fn(_, args) => LoweringKeepsValues(env, args);
    case Pipes(args) => LoweringKeepsValues(env, args);
    case ConcatCall(_, args) =>
      LoweringKeepsValues(env, args);
      WrapSound(AllLowered(args));
      WrapValues(env, AllLowered(args));
      ChainIsConcat(EvalAll(env, args));
  }

  lemma {:induction false} LoweringKeepsValues(env: Env, args: seq<Arg>)
    requires AllSound(args)
    ensures AllSound(AllLowered(args)) && EvalAll(env, AllLowered(args)) == EvalAll(env, args)
    decreases args, 0
  {
    if args != [] {
      LoweringKeepsValue(env, args[0].e);
      LoweringKeepsValues(env, args[1..]);
      assert AllLowered(args)[1..] == AllLowered(args[1..]);
    }
  }
}

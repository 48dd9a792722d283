/** The two protocol paths: a simple query against Parse, Bind, Describe, Execute, Sync. */
module Protocols {
  import opened Text
  import opened Command
  import opened Sqlite
  import opened SessionSpec
  import opened Replies
  import opened Resources
  import opened Transactions

  function DataRows(rs: seq<Reply>): seq<Reply> {
    if rs == [] then [] else DataRows(rs[..|rs| - 1]) + if rs[|rs| - 1].DataRow? then [rs[|rs| - 1]] else []
  }

  /** Completions and errors. */
  function Verdicts(rs: seq<Reply>): seq<Reply> {
    if rs == [] then []
    else Verdicts(rs[..|rs| - 1]) +
         if rs[|rs| - 1].CommandComplete? || rs[|rs| - 1].ErrorResponse? then [rs[|rs| - 1]] else []
  }

  lemma {:induction false} FiltersAppend(a: seq<Reply>, b: seq<Reply>)
    ensures DataRows(a + b) == DataRows(a) + DataRows(b) && Verdicts(a + b) == Verdicts(a) + Verdicts(b)
    decreases |b|
  {
    if b == [] {
      assert a + b == a;
    } else {
      assert (a + b)[..|a + b| - 1] == a + b[..|b| - 1];
      FiltersAppend(a, b[..|b| - 1]);
    }
  }

  lemma FilterOne(r: Reply)
    ensures DataRows([r]) == (if r.DataRow? then [r] else [])
    ensures Verdicts([r]) == (if r.CommandComplete? || r.ErrorResponse? then [r] else [])
  {
  }

  lemma {:induction false} FilterRows(rs: seq<Reply>)
    requires AllRows(rs)
    ensures DataRows(rs) == rs && Verdicts(rs) == []
    decreases |rs|
  {
    if rs != [] {
      FilterRows(rs[..|rs| - 1]);
      assert rs == rs[..|rs| - 1] + [rs[|rs| - 1]];
    }
  }

  /** What a client learns about its statement: data rows, and the completion or error. */
  datatype Outcome = Outcome(rows: seq<Reply>, verdicts: seq<Reply>)

  function OutcomeOf(rs: seq<Reply>): Outcome {
    Outcome(DataRows(rs), Verdicts(rs))
  }

  /** The outcome of some replies with others around them that say nothing about it. */
  lemma OutcomeAround(before: seq<Reply>, rs: seq<Reply>, after: seq<Reply>)
    requires OutcomeOf(before) == Outcome([], []) && OutcomeOf(after) == Outcome([], [])
    ensures OutcomeOf(before + rs + after) == OutcomeOf(rs)
  {
    FiltersAppend(before, rs);
    FiltersAppend(before + rs, after);
    assert [] + DataRows(rs) + [] == DataRows(rs) && [] + Verdicts(rs) + [] == Verdicts(rs);
  }

  lemma OutcomeOfVerdict(rows: seq<Reply>, v: Reply)
    requires AllRows(rows) && (v.CommandComplete? || v.ErrorResponse?)
    ensures OutcomeOf(rows + [v]) == Outcome(rows, [v])
  {
    FilterRows(rows);
    FilterOne(v);
    FiltersAppend(rows, [v]);
  }

  lemma SilentPairs(a: Reply, b: Reply)
    requires !a.DataRow? && !a.CommandComplete? && !a.ErrorResponse?
    requires !b.DataRow? && !b.CommandComplete? && !b.ErrorResponse?
    ensures OutcomeOf([a]) == Outcome([], []) && OutcomeOf([a, b]) == Outcome([], []) && OutcomeOf([]) == Outcome([], [])
  {
    FilterOne(a);
    FilterOne(b);
    FiltersAppend([a], [b]);
    assert [a] + [b] == [a, b];
  }

  /** How one path ended: database, status, the statements that ran, and the outcome. */
  datatype End = End(db: Db, status: Status, ran: seq<string>, outcome: Outcome)

  function Queries(log: seq<Ran>): seq<string> {
    seq(|log|, i requires 0 <= i < |log| => log[i].query)
  }

  predicate EndsAs(s: Session, t: Session, e: End) {
    && t.link.db == e.db && t.status == e.status && Queries(t.link.log) == Queries(s.link.log) + e.ran
    && s.out <= t.out && OutcomeOf(t.out[|s.out|..]) == e.outcome
  }

  // --------------------------------------------------- what the statement amounts to

  /** The end both paths come to for a text that can run with these values, status aside. */
  function Verdict(env: Env, s: Session, q: string, ps: seq<Param>): End {
    var (db, y) := Apply(env.driver, s.link.db, q, ps);
    var failed := (after: Db, f: Sqlite.Failure, ran: seq<string>) =>
      End(after, AfterError(s.status), ran, Outcome([], [ErrorResponse(f)]));
    if s.status == Failed then
      if EndsBlock(LeadingKeyword(q)) then
        var l := ExecDirect(env.driver, s.link, "ROLLBACK").0;
        End(l.db, Idle, if l.log == s.link.log then [] else ["ROLLBACK"], Outcome([], [CommandComplete("ROLLBACK")]))
      else End(s.link.db, Failed, [], Outcome([], [ErrorResponse(FailedTransaction)]))
    else if !IsRowReturning(q) then
      if y.failure.Some? then failed(db, y.failure.value, [q])
      else End(db, Noted(s.status, LeadingKeyword(q)), [q], Outcome([], [CommandComplete(CommandTag(q, y.affected, 0))]))
    else
      match env.driver.columns(s.link.db.working, q)
      case Err(f) => failed(s.link.db, f, [])
      case Ok(_) =>
        match Collect(y.rows, y.failure)
        case Err(f) => failed(db, f, [q])
        case Ok(rows) => End(db, s.status, [q], Outcome(rows, [CommandComplete(CommandTag(q, 0, |rows|))]))
  }

  lemma OneMoreQuery(log: seq<Ran>, r: Ran)
    ensures Queries(log + [r]) == Queries(log) + [r.query] && Queries(log) == Queries(log) + []
  {
  }

  /** Replies with silent ones around them. */
  lemma Saying(s: Session, t: Session, before: seq<Reply>, rows: seq<Reply>, v: Reply, after: seq<Reply>)
    requires t.out == s.out + (before + (rows + [v]) + after)
    requires AllRows(rows) && (v.CommandComplete? || v.ErrorResponse?)
    requires OutcomeOf(before) == Outcome([], []) && OutcomeOf(after) == Outcome([], [])
    ensures s.out <= t.out && OutcomeOf(t.out[|s.out|..]) == Outcome(rows, [v])
  {
    OutcomeAround(before, rows + [v], after);
    OutcomeOfVerdict(rows, v);
    assert t.out[|s.out|..] == before + (rows + [v]) + after;
  }

  // ------------------------------------------------------------------ simple query

  /** A single verdict and ReadyForQuery. */
  lemma SayingOnly(s: Session, t: Session, v: Reply)
    requires t.out == s.out + [v, ReadyForQuery(t.status)] && (v.CommandComplete? || v.ErrorResponse?)
    ensures s.out <= t.out && OutcomeOf(t.out[|s.out|..]) == Outcome([], [v])
  {
    var ready := ReadyForQuery(t.status);
    SilentPairs(ready, ready);
    assert [] + ([] + [v]) + [ready] == [v, ready];
    Saying(s, t, [], [], v, [ready]);
  }

  lemma SimpleExec(env: Env, s: Session, q: string)
    requires env.driver.prepare(s.link.db.working, q) == Ok(0) && s.status != Failed && !IsRowReturning(q)
    ensures EndsAs(s, ExecSimple(env, s, q), Verdict(env, s, q, []))
  {
    hide LeadingKeyword, IsRowReturning, CommandTag, Apply, OutcomeOf, Queries;
    var y := Apply(env.driver, s.link.db, q, []).1;
    OneMoreQuery(s.link.log, Ran(None, q));
    SayingOnly(s, ExecSimple(env, s, q),
               if y.failure.Some? then ErrorResponse(y.failure.value) else CommandComplete(CommandTag(q, y.affected, 0)));
  }

  lemma SimpleStream(env: Env, s: Session, q: string)
    requires env.driver.prepare(s.link.db.working, q) == Ok(0) && s.status != Failed && IsRowReturning(q)
    ensures EndsAs(s, StreamSimple(env, s, q), Verdict(env, s, q, []))
  {
    hide LeadingKeyword, IsRowReturning, CommandTag, Apply, OutcomeOf, Queries, Collect;
    var t := StreamSimple(env, s, q);
    var y := Apply(env.driver, s.link.db, q, []).1;
    OneMoreQuery(s.link.log, Ran(None, q));
    match env.driver.columns(s.link.db.working, q)
    case Err(f) => SayingOnly(s, t, ErrorResponse(f));
    case Ok(cols) =>
      match Collect(y.rows, y.failure)
      case Err(f) => SayingOnly(s, t, ErrorResponse(f));
      case Ok(rows) =>
        CollectedRows(y.rows, y.failure);
        SayingRows(s, t, cols, rows, CommandComplete(CommandTag(q, 0, |rows|)));
  }

  lemma SayingRows(s: Session, t: Session, cols: seq<Column>, rows: seq<Reply>, done: Reply)
    requires t.out == s.out + ((if cols != [] then [RowDescription(cols)] else []) + rows + [done, ReadyForQuery(t.status)])
    requires AllRows(rows) && done.CommandComplete?
    ensures s.out <= t.out && OutcomeOf(t.out[|s.out|..]) == Outcome(rows, [done])
  {
    var before := if cols != [] then [RowDescription(cols)] else [];
    var ready := ReadyForQuery(t.status);
    SilentPairs(RowDescription(cols), ready);
    SilentPairs(ready, ready);
    StreamedOut(s.out, before, rows, done, ready);
    Saying(s, t, before, rows, done, [ready]);
  }

  lemma StreamedOut(out: seq<Reply>, before: seq<Reply>, rows: seq<Reply>, done: Reply, ready: Reply)
    ensures out + (before + rows + [done, ready]) == out + (before + (rows + [done]) + [ready])
  {
  }

  /** A statement that is refused before it runs. */
  function RefusedEnd(s: Session, f: Sqlite.Failure): End {
    End(s.link.db, AfterError(s.status), [], Outcome([], [ErrorResponse(f)]))
  }

  /** How a simple query ends. In a failed transaction the text is not even prepared. */
  function SimpleEnd(env: Env, s: Session, q: string): End {
    var direct := Direct(env.driver, s.link, q);
    if s.status != Failed && direct.Err? then RefusedEnd(s, direct.failure) else Verdict(env, s, q, [])
  }

  lemma SimpleRefused(env: Env, s: Session, q: string)
    requires s.status != Failed && Direct(env.driver, s.link, q).Err?
    ensures EndsAs(s, ExecSimple(env, s, q), SimpleEnd(env, s, q))
    ensures EndsAs(s, StreamSimple(env, s, q), SimpleEnd(env, s, q))
  {
    hide LeadingKeyword, CommandTag, Verdict, OutcomeOf, Queries;
    var f := Direct(env.driver, s.link, q).failure;
    OneMoreQuery(s.link.log, Ran(None, q));
    SayingOnly(s, ExecSimple(env, s, q), ErrorResponse(f));
    SayingOnly(s, StreamSimple(env, s, q), ErrorResponse(f));
  }

  /** How the simple query ends. */
  lemma SimpleEnds(env: Env, s: Session, text: string)
    requires TrimSpace(env.rewrite(text)) != ""
    ensures EndsAs(s, HandleQuery(env, s, text), SimpleEnd(env, s, env.rewrite(text)))
  {
    hide LeadingKeyword, IsRowReturning, CommandTag, OutcomeOf, TrimSpace, ExecSimple, StreamSimple, Apply;
    var q := env.rewrite(text);
    var t := HandleQuery(env, s, text);
    if s.status == Failed {
      OneMoreQuery(s.link.log, Ran(None, "ROLLBACK"));
      SayingOnly(s, t, if EndsBlock(LeadingKeyword(q)) then CommandComplete("ROLLBACK") else ErrorResponse(FailedTransaction));
    } else if Direct(env.driver, s.link, q).Err? {
      SimpleRefused(env, s, q);
    } else if IsRowReturning(q) {
      SimpleStream(env, s, q);
    } else {
      SimpleExec(env, s, q);
    }
  }

  // ---------------------------------------------------------------- extended query

  /** One statement through the extended protocol, with the values of its parameters. */
  function Batch(statement: string, portal: string, text: string, ps: seq<Param>): seq<Message> {
    [Parse(statement, text), Bind(portal, statement, ps), Describe('P', portal), Execute(portal), Sync]
  }

  /** The session after Parse and Bind of a text with n parameters: the portal holds the values sent. */
  predicate Bound(s: Session, b: Session, q: string, portal: string, n: nat, ps: seq<Param>) {
    && b.link.db == s.link.db && b.link.log == s.link.log && b.status == s.status && Active(b)
    && b.out == s.out + [ParseComplete, BindComplete]
    && portal in b.portals
    && var p := b.portals[portal];
       && p.ps.query == q && p.ps.handle in b.link.stmts && b.link.stmts[p.ps.handle] == Prepared(q, n)
       && p.params == ps && p.cols == [] && !p.executed && p.rows.None? && p.result.None? && p.execErr.None?
       && b.link.next !in b.link.cursors
  }

  lemma ParseAndBind(env: Env, s: Session, statement: string, portal: string, text: string, n: nat, ps: seq<Param>)
    requires Conserved(s) && Active(s) && env.driver.prepare(s.link.db.working, env.rewrite(text)) == Ok(n)
    ensures Bound(s, Step(env, Step(env, s, Parse(statement, text)), Bind(portal, statement, ps)), env.rewrite(text), portal, n, ps)
  {
    hide CountParams, StmtsOwned, CursorsOwned;
    var s1 := HandleParse(env, s, statement, text);
    NextIsNew(s);
    StepConserves(env, s, Parse(statement, text));
    NextIsNew(s1);
    if statement in s.stmts {
      HandleIsOld(s, statement);
    }
    assert s.out + [ParseComplete] + [BindComplete] == s.out + [ParseComplete, BindComplete];
  }

  lemma HandleIsOld(s: Session, statement: string)
    requires Conserved(s) && statement in s.stmts
    ensures s.stmts[statement].handle != s.link.next
  {
  }

  /** Describe portal, Execute, Sync. */
  function Rest(env: Env, b: Session, portal: string): Session {
    Step(env, Step(env, Step(env, b, Describe('P', portal)), Execute(portal)), Sync)
  }

  /** The end of the extended path: it also notes row-returning statements that succeed. */
  function ExtendedVerdict(env: Env, s: Session, q: string, ps: seq<Param>): End {
    var e := Verdict(env, s, q, ps);
    if s.status != Failed && IsRowReturning(q) && e.outcome.verdicts[0].CommandComplete?
    then e.(status := Noted(s.status, LeadingKeyword(q))) else e
  }

  lemma SilentStart(shape: Reply)
    requires ShapeReply(shape)
    ensures OutcomeOf([ParseComplete, BindComplete, shape]) == Outcome([], [])
    ensures OutcomeOf([ParseComplete, BindComplete]) == Outcome([], [])
    ensures [ParseComplete, BindComplete] + [shape] == [ParseComplete, BindComplete, shape]
  {
    SilentPairs(ParseComplete, BindComplete);
    SilentPairs(shape, shape);
    FiltersAppend([ParseComplete, BindComplete], [shape]);
    assert [ParseComplete, BindComplete] + [shape] == [ParseComplete, BindComplete, shape];
  }

  /** A failure at Describe: Execute is dropped and Sync answers. */
  lemma FailsAtDescribe(env: Env, s: Session, b: Session, portal: string, f: Sqlite.Failure, ran: seq<string>)
    requires b.out == s.out + [ParseComplete, BindComplete] && Active(b)
    requires Step(env, b, Describe('P', portal)).skip && !Step(env, b, Describe('P', portal)).over
    requires var d := Step(env, b, Describe('P', portal));
             d.out == b.out + [ErrorResponse(f)] && Queries(d.link.log) == Queries(s.link.log) + ran
    ensures var d := Step(env, b, Describe('P', portal));
            EndsAs(s, Rest(env, b, portal), End(d.link.db, d.status, ran, Outcome([], [ErrorResponse(f)])))
  {
    hide HandleDescribe, HandleExecute, DataRows, Verdicts, Queries;
    var d := Step(env, b, Describe('P', portal));
    var t := Rest(env, b, portal);
    var before, ready := [ParseComplete, BindComplete], ReadyForQuery(d.status);
    SilentStart(NoData);
    SilentPairs(ready, ready);
    assert t.out == s.out + (before + ([] + [ErrorResponse(f)]) + [ready]);
    Saying(s, t, before, [], ErrorResponse(f), [ready]);
  }

  /** Describe answers and Execute ends the statement. */
  lemma EndsAtExecute(env: Env, s: Session, b: Session, portal: string, shape: Reply, rows: seq<Reply>, v: Reply, ran: seq<string>)
    requires b.out == s.out + [ParseComplete, BindComplete] && ShapeReply(shape) && AllRows(rows)
    requires v.CommandComplete? || v.ErrorResponse?
    requires var d := Step(env, b, Describe('P', portal)); var x := Step(env, d, Execute(portal));
             d.out == b.out + [shape] && x.out == d.out + (rows + [v]) && !x.over && Queries(x.link.log) == Queries(s.link.log) + ran
    ensures var x := Step(env, Step(env, b, Describe('P', portal)), Execute(portal));
            EndsAs(s, Rest(env, b, portal), End(x.link.db, x.status, ran, Outcome(rows, [v])))
  {
    hide HandleDescribe, HandleExecute, DataRows, Verdicts, Queries;
    var x := Step(env, Step(env, b, Describe('P', portal)), Execute(portal));
    var t := Rest(env, b, portal);
    var before, ready := [ParseComplete, BindComplete, shape], ReadyForQuery(x.status);
    SilentStart(shape);
    SilentPairs(ready, ready);
    ExecutedOut(s.out, shape, rows + [v], ready);
    Saying(s, t, before, rows, v, [ready]);
  }

  lemma ExecutedOut(out: seq<Reply>, shape: Reply, rs: seq<Reply>, ready: Reply)
    ensures ((out + [ParseComplete, BindComplete] + [shape]) + rs) + [ready] ==
            out + ([ParseComplete, BindComplete, shape] + rs + [ready])
  {
  }

  lemma RestFailed(env: Env, s: Session, b: Session, q: string, portal: string, n: nat, ps: seq<Param>)
    requires Bound(s, b, q, portal, n, ps) && s.status == Failed
    ensures EndsAs(s, Rest(env, b, portal), ExtendedVerdict(env, s, q, ps))
  {
    hide LeadingKeyword, IsRowReturning, CommandTag, DataRows, Verdicts, Apply, Queries;
    OneMoreQuery(s.link.log, Ran(None, "ROLLBACK"));
    if EndsBlock(LeadingKeyword(q)) {
      var v := CommandComplete("ROLLBACK");
      assert [v] == [] + [v];
      var ran := if ExecDirect(env.driver, s.link, "ROLLBACK").0.log == s.link.log then [] else ["ROLLBACK"];
      EndsAtExecute(env, s, b, portal, NoData, [], v, ran);
    } else {
      FailsAtDescribe(env, s, b, portal, FailedTransaction, []);
    }
  }

  lemma RestExec(env: Env, s: Session, b: Session, q: string, portal: string, ps: seq<Param>)
    requires Bound(s, b, q, portal, |ps|, ps) && s.status != Failed && !IsRowReturning(q)
    ensures EndsAs(s, Rest(env, b, portal), ExtendedVerdict(env, s, q, ps))
  {
    hide LeadingKeyword, IsRowReturning, CommandTag, DataRows, Verdicts, Apply, Queries;
    var p := b.portals[portal];
    var y := Apply(env.driver, s.link.db, q, ps).1;
    OneMoreQuery(s.link.log, Ran(Some(p.id), q));
    if y.failure.Some? {
      FailsAtDescribe(env, s, b, portal, y.failure.value, [q]);
    } else {
      var v := CommandComplete(CommandTag(q, y.affected, 0));
      assert [v] == [] + [v];
      EndsAtExecute(env, s, b, portal, NoData, [], v, [q]);
    }
  }

  lemma RestStream(env: Env, s: Session, b: Session, q: string, portal: string, ps: seq<Param>)
    requires Bound(s, b, q, portal, |ps|, ps) && s.status != Failed && IsRowReturning(q)
    ensures EndsAs(s, Rest(env, b, portal), ExtendedVerdict(env, s, q, ps))
  {
    hide LeadingKeyword, IsRowReturning, CommandTag, DataRows, Verdicts, Apply, Queries, Collect;
    var p := b.portals[portal];
    var y := Apply(env.driver, s.link.db, q, ps).1;
    OneMoreQuery(s.link.log, Ran(Some(p.id), q));
    CollectedRows(y.rows, y.failure);
    match env.driver.columns(s.link.db.working, q)
    case Err(f) => FailsAtDescribe(env, s, b, portal, f, []);
    case Ok(cols) =>
      match Collect(y.rows, y.failure)
      case Err(f) =>
        assert [ErrorResponse(f)] == [] + [ErrorResponse(f)];
        EndsAtExecute(env, s, b, portal, Shape(cols), [], ErrorResponse(f), [q]);
      case Ok(rows) =>
        EndsAtExecute(env, s, b, portal, Shape(cols), rows, CommandComplete(CommandTag(q, 0, |rows|)), [q]);
  }

  lemma BatchRun(env: Env, s: Session, statement: string, portal: string, text: string, ps: seq<Param>)
    ensures Run(env, s, Batch(statement, portal, text, ps)) ==
            Rest(env, Step(env, Step(env, s, Parse(statement, text)), Bind(portal, statement, ps)), portal)
  {
    hide Step;
    var sync: seq<Message> := [Sync];
    var execute, describe := [Execute(portal)] + sync, [Describe('P', portal)] + ([Execute(portal)] + sync);
    var bind := [Bind(portal, statement, ps)] + describe;
    assert Batch(statement, portal, text, ps) == [Parse(statement, text)] + bind;
    var s1 := Step(env, s, Parse(statement, text));
    var s2 := Step(env, s1, Bind(portal, statement, ps));
    var s3 := Step(env, s2, Describe('P', portal));
    RunFirst(env, s, Parse(statement, text), bind);
    RunFirst(env, s1, Bind(portal, statement, ps), describe);
    RunFirst(env, s2, Describe('P', portal), execute);
    RunFirst(env, s3, Execute(portal), sync);
    assert sync == sync + [] && sync + [] == [Sync] + [];
    RunFirst(env, Step(env, s3, Execute(portal)), Sync, []);
  }

  lemma RunFirst(env: Env, s: Session, m: Message, rest: seq<Message>)
    ensures Run(env, s, [m] + rest) == Run(env, Step(env, s, m), rest)
  {
  }

  /** Whether the two paths leave different statuses: a row-returning statement that succeeds and
      begins with a transaction keyword is noted by Execute but not by a simple query. */
  predicate Diverges(env: Env, s: Session, q: string) {
    && s.status != Failed && IsRowReturning(q) && Noted(s.status, LeadingKeyword(q)) != s.status
    && Verdict(env, s, q, []).outcome.verdicts[0].CommandComplete?
  }

  /** How the batch ends: a text that cannot be prepared fails at Parse, one that is bound to another
      number of values than it has parameters at Describe; else it runs with the values that were bound. */
  function ExtendedEnd(env: Env, s: Session, q: string, ps: seq<Param>): End {
    match env.driver.prepare(s.link.db.working, q)
    case Err(f) => RefusedEnd(s, f)
    case Ok(n) => if n == |ps| || s.status == Failed then ExtendedVerdict(env, s, q, ps) else RefusedEnd(s, WrongArguments(n, |ps|))
  }

  lemma RestUnbound(env: Env, s: Session, b: Session, q: string, portal: string, n: nat, ps: seq<Param>)
    requires Bound(s, b, q, portal, n, ps) && s.status != Failed && n != |ps|
    ensures EndsAs(s, Rest(env, b, portal), RefusedEnd(s, WrongArguments(n, |ps|)))
  {
    hide LeadingKeyword, IsRowReturning, CommandTag, DataRows, Verdicts, Apply, Queries;
    OneMoreQuery(s.link.log, Ran(None, q));
    FailsAtDescribe(env, s, b, portal, WrongArguments(n, |ps|), []);
  }

  /** A failure at Parse: everything up to Sync is dropped. */
  lemma FailsAtParse(env: Env, s: Session, statement: string, portal: string, text: string, ps: seq<Param>)
    requires Active(s) && env.driver.prepare(s.link.db.working, env.rewrite(text)).Err?
    ensures var f := env.driver.prepare(s.link.db.working, env.rewrite(text)).failure;
            EndsAs(s, Run(env, s, Batch(statement, portal, text, ps)), RefusedEnd(s, f))
  {
    hide CountParams, HandleBind, HandleDescribe, HandleExecute, DataRows, Verdicts, Queries, Batch;
    var f := env.driver.prepare(s.link.db.working, env.rewrite(text)).failure;
    BatchRun(env, s, statement, portal, text, ps);
    var d := Step(env, s, Parse(statement, text));
    assert d.skip && d.out == s.out + [ErrorResponse(f)];
    var t := Rest(env, Step(env, d, Bind(portal, statement, ps)), portal);
    assert t == Step(env, d, Sync);
    var ready := ReadyForQuery(d.status);
    SilentPairs(ready, ready);
    OneMoreQuery(s.link.log, Ran(None, text));
    assert t.out == s.out + ([] + ([] + [ErrorResponse(f)]) + [ready]);
    Saying(s, t, [], [], ErrorResponse(f), [ready]);
  }

  lemma ExtendedEnds(env: Env, s: Session, statement: string, portal: string, text: string, ps: seq<Param>)
    requires Conserved(s) && Active(s)
    ensures EndsAs(s, Run(env, s, Batch(statement, portal, text, ps)), ExtendedEnd(env, s, env.rewrite(text), ps))
  {
    hide Step, Rest, EndsAs, ExtendedVerdict, IsRowReturning;
    var q := env.rewrite(text);
    match env.driver.prepare(s.link.db.working, q)
    case Err(_) => FailsAtParse(env, s, statement, portal, text, ps);
    case Ok(n) =>
      BatchRun(env, s, statement, portal, text, ps);
      ParseAndBind(env, s, statement, portal, text, n, ps);
      var b := Step(env, Step(env, s, Parse(statement, text)), Bind(portal, statement, ps));
      if s.status == Failed {
        RestFailed(env, s, b, q, portal, n, ps);
      } else if n != |ps| {
        RestUnbound(env, s, b, q, portal, n, ps);
      } else if IsRowReturning(q) {
        RestStream(env, s, b, q, portal, ps);
      } else {
        RestExec(env, s, b, q, portal, ps);
      }
  }

  /** Whether the two paths come to the same end, read off the state before. */
  predicate PathsMeet(env: Env, s: Session, q: string) {
    match env.driver.prepare(s.link.db.working, q)
    case Err(f) => s.status != Failed || (!EndsBlock(LeadingKeyword(q)) && f == FailedTransaction)
    case Ok(n) => if n == 0 then !Diverges(env, s, q) else s.status == Failed
  }

  lemma EndsMeet(env: Env, s: Session, q: string)
    ensures SimpleEnd(env, s, q) == ExtendedEnd(env, s, q, []) <==> PathsMeet(env, s, q)
  {
    hide LeadingKeyword, IsRowReturning, CommandTag, Apply, Collect;
  }

  /** After the same session, with the same database, statements run, reports and status. */
  predicate SameEnding(s: Session, a: Session, b: Session) {
    && a.link.db == b.link.db && a.status == b.status && Queries(a.link.log) == Queries(b.link.log)
    && s.out <= a.out && s.out <= b.out && OutcomeOf(a.out[|s.out|..]) == OutcomeOf(b.out[|s.out|..])
  }

  lemma SameEnd(s: Session, a: Session, b: Session, e: End, f: End)
    requires EndsAs(s, a, e) && EndsAs(s, b, f)
    ensures SameEnding(s, a, b) <==> e == f
  {
    hide OutcomeOf, Queries;
    var log := Queries(s.link.log);
    assert (log + e.ran)[|log|..] == e.ran && (log + f.ran)[|log|..] == f.ran;
  }

  /** For any statement that is not blank, prepared or not, with parameters or without, in any state: the
      simple query and the batch end alike exactly when the paths meet. */
  lemma PathsAgreeIff(env: Env, s: Session, statement: string, portal: string, text: string)
    requires Conserved(s) && Active(s) && TrimSpace(env.rewrite(text)) != ""
    ensures SameEnding(s, Run(env, s, [Query(text)]), Run(env, s, Batch(statement, portal, text, []))) <==>
            PathsMeet(env, s, env.rewrite(text))
  {
    hide Run, HandleQuery, EndsAs, SimpleEnd, ExtendedEnd, PathsMeet, SameEnding, TrimSpace, Batch, Conserved;
    var q := env.rewrite(text);
    SimpleEnds(env, s, text);
    ExtendedEnds(env, s, statement, portal, text, []);
    EndsMeet(env, s, q);
    OneQuery(env, s, text);
    SameEnd(s, HandleQuery(env, s, text), Run(env, s, Batch(statement, portal, text, [])), SimpleEnd(env, s, q), ExtendedEnd(env, s, q, []));
  }

  lemma OneQuery(env: Env, s: Session, text: string)
    requires Active(s)
    ensures Run(env, s, [Query(text)]) == HandleQuery(env, s, text)
  {
    hide HandleQuery;
    assert [Query(text)][1..] == [];
  }

  /** The two paths agree: for a statement without parameters that the engine can prepare, a simple
      query and the batch leave the same database, have run the same statements, and answer with the
      same rows and the same completion or error; the status is the same unless it diverges. */
  lemma PathsAgree(env: Env, s: Session, statement: string, portal: string, text: string)
    requires Conserved(s) && Active(s) && TrimSpace(env.rewrite(text)) != ""
    requires env.driver.prepare(s.link.db.working, env.rewrite(text)) == Ok(0)
    ensures var a := Run(env, s, [Query(text)]); var b := Run(env, s, Batch(statement, portal, text, []));
            && a.link.db == b.link.db
            && Queries(a.link.log) == Queries(b.link.log)
            && s.out <= a.out && s.out <= b.out
            && OutcomeOf(a.out[|s.out|..]) == OutcomeOf(b.out[|s.out|..])
            && (a.status == b.status <==> !Diverges(env, s, env.rewrite(text)))
            && (Tracked(env, env.rewrite(text)) ==> a.status == b.status)
  {
    hide DataRows, Verdicts, Queries, Apply, IsRowReturning, LeadingKeyword, HandleQuery, TrimSpace, CommandTag, Collect;
    SimpleEnds(env, s, text);
    ExtendedEnds(env, s, statement, portal, text, []);
    assert [Query(text)][1..] == [];
    assert Run(env, s, [Query(text)]) == HandleQuery(env, s, text);
    NotedKind(env.rewrite(text), s.status);
  }
}

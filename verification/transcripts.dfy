/** The replies of a statement in full, reply by reply, on both protocol paths. */
module Transcripts {
  import opened Text
  import opened Command
  import opened Sqlite
  import opened SessionSpec
  import opened Replies
  import opened Resources
  import opened Transactions
  import opened Protocols

  // ------------------------------------------------------------------ data rows

  /** The data rows sent are the rows of the cursor, one by one and in order; there are none exactly when a
      row cannot be converted or the cursor fails, and the first such failure is the one reported. */
  lemma {:induction false} CollectMeans(rows: seq<Scanned>, failure: Option<Sqlite.Failure>)
    ensures var c := Collect(rows, failure);
            && (c.Ok? <==> failure.None? && forall i :: 0 <= i < |rows| ==> rows[i].Row?)
            && (c.Ok? ==> |c.value| == |rows| && forall i :: 0 <= i < |rows| ==> c.value[i] == DataRow(rows[i].values))
            && (c.Err? ==> FirstFailure(rows, failure) == Some(c.failure))
  {
    if rows != [] {
      CollectMeans(rows[1..], failure);
      assert forall i :: 0 < i < |rows| ==> rows[i] == rows[1..][i - 1];
      assert forall i :: 0 <= i < |rows| - 1 ==> rows[1..][i] == rows[i + 1];
    }
  }

  /** The failure of the first row that cannot be converted, else that of the cursor. */
  function FirstFailure(rows: seq<Scanned>, failure: Option<Sqlite.Failure>): Option<Sqlite.Failure> {
    if rows == [] then failure
    else if rows[0].Unscannable? then Some(EngineFailure(rows[0].message))
    else FirstFailure(rows[1..], failure)
  }

  // --------------------------------------------------------------- simple query

  /** A description of the columns, sent only when there are some. */
  function Described(cols: Result<seq<Column>>): seq<Reply> {
    if cols.Ok? && cols.value != [] then [RowDescription(cols.value)] else []
  }

  predicate Completes(e: End) {
    e.outcome.verdicts != [] && e.outcome.verdicts[0].CommandComplete?
  }

  /** Description, rows, completion or error, ReadyForQuery; an error is sent without description and rows. */
  function SimpleReplies(env: Env, s: Session, q: string): seq<Reply> {
    var e := SimpleEnd(env, s, q);
    (if s.status != Failed && IsRowReturning(q) && Completes(e) then Described(env.driver.columns(s.link.db.working, q)) else []) +
    e.outcome.rows + e.outcome.verdicts + [ReadyForQuery(e.status)]
  }

  lemma SimpleExecSays(env: Env, s: Session, q: string)
    requires s.status != Failed && !IsRowReturning(q)
    ensures ExecSimple(env, s, q).out == s.out + SimpleReplies(env, s, q)
  {
    hide LeadingKeyword, IsRowReturning, CommandTag, Apply;
  }

  /** The three ways in which a streamed query fails, and the one in which it completes. */
  lemma StreamReplies(env: Env, s: Session, q: string)
    requires s.status != Failed && IsRowReturning(q)
    ensures var direct := Direct(env.driver, s.link, q); var cols := env.driver.columns(s.link.db.working, q);
            var y := Apply(env.driver, s.link.db, q, []).1; var rows := Collect(y.rows, y.failure);
            SimpleReplies(env, s, q) ==
            if direct.Err? then [ErrorResponse(direct.failure), ReadyForQuery(AfterError(s.status))]
            else if cols.Err? then [ErrorResponse(cols.failure), ReadyForQuery(AfterError(s.status))]
            else if rows.Err? then [ErrorResponse(rows.failure), ReadyForQuery(AfterError(s.status))]
            else Described(cols) + rows.value + [CommandComplete(CommandTag(q, 0, |rows.value|)), ReadyForQuery(s.status)]
  {
    hide LeadingKeyword, IsRowReturning, CommandTag, Apply, Collect, AfterError, Direct, Described;
    var cols := env.driver.columns(s.link.db.working, q);
    var y := Apply(env.driver, s.link.db, q, []).1;
    if cols.Ok? && Collect(y.rows, y.failure).Ok? {
      var rows := Collect(y.rows, y.failure).value;
      TwoAtTheEnd(Described(cols) + rows, CommandComplete(CommandTag(q, 0, |rows|)), ReadyForQuery(s.status));
    }
  }

  lemma SimpleStreamSays(env: Env, s: Session, q: string)
    requires s.status != Failed && IsRowReturning(q)
    ensures StreamSimple(env, s, q).out == s.out + SimpleReplies(env, s, q)
  {
    hide LeadingKeyword, IsRowReturning, CommandTag, Apply, Collect, ColumnTypes, Drain, SimpleReplies, AfterError, Direct;
    StreamReplies(env, s, q);
    if Direct(env.driver, s.link, q).Ok? {
      StreamOpened(env, s, q);
    }
  }

  lemma TwoAtTheEnd(front: seq<Reply>, done: Reply, ready: Reply)
    ensures front + [done, ready] == front + [done] + [ready]
  {
  }

  lemma SimpleFailedSays(env: Env, s: Session, q: string)
    requires s.status == Failed
    ensures SimpleReplies(env, s, q) ==
            if EndsBlock(LeadingKeyword(q)) then [CommandComplete("ROLLBACK"), ReadyForQuery(Idle)]
            else [ErrorResponse(FailedTransaction), ReadyForQuery(Failed)]
  {
    hide LeadingKeyword, IsRowReturning, CommandTag, Apply, ExecDirect;
  }

  /** What a client reads after any simple query that is not blank. */
  lemma SimpleSays(env: Env, s: Session, text: string)
    requires TrimSpace(env.rewrite(text)) != ""
    ensures HandleQuery(env, s, text).out == s.out + SimpleReplies(env, s, env.rewrite(text))
  {
    hide LeadingKeyword, IsRowReturning, CommandTag, TrimSpace, ExecSimple, StreamSimple, SimpleReplies, ExecDirect;
    var q := env.rewrite(text);
    if s.status == Failed {
      SimpleFailedSays(env, s, q);
    } else {
      if IsRowReturning(q) {
        SimpleStreamSays(env, s, q);
      } else {
        SimpleExecSays(env, s, q);
      }
    }
  }

  // ------------------------------------------------------------ extended protocol

  /** The answer to Describe of the portal; none when it is an error. */
  function ShapeReplies(env: Env, s: Session, q: string, n: nat, ps: seq<Param>): seq<Reply> {
    if s.status == Failed then if EndsBlock(LeadingKeyword(q)) then [NoData] else []
    else if n != |ps| then []
    else if !IsRowReturning(q) then if Apply(env.driver, s.link.db, q, ps).1.failure.Some? then [] else [NoData]
    else
      match env.driver.columns(s.link.db.working, q)
      case Err(_) => []
      case Ok(cols) => if cols == [] then [NoData] else [RowDescription(cols)]
  }

  /** ParseComplete, BindComplete, the columns or NoData, rows, completion or error, ReadyForQuery. */
  function ExtendedReplies(env: Env, s: Session, q: string, ps: seq<Param>): seq<Reply> {
    var e := ExtendedEnd(env, s, q, ps);
    (match env.driver.prepare(s.link.db.working, q)
     case Err(_) => []
     case Ok(n) => [ParseComplete, BindComplete] + ShapeReplies(env, s, q, n, ps)) +
    e.outcome.rows + e.outcome.verdicts + [ReadyForQuery(e.status)]
  }

  lemma RestSays(env: Env, s: Session, b: Session, q: string, portal: string, n: nat, ps: seq<Param>)
    requires Bound(s, b, q, portal, n, ps) && env.driver.prepare(s.link.db.working, q) == Ok(n)
    ensures Rest(env, b, portal).out == s.out + ExtendedReplies(env, s, q, ps)
  {
    hide LeadingKeyword, IsRowReturning, CommandTag, Apply, Collect, ExecDirect, ExtendedReplies;
    if s.status == Failed {
      FailedSays(env, s, b, q, portal, n, ps);
    } else if IsRowReturning(q) {
      StreamSays(env, s, b, q, portal, n, ps);
    } else {
      ExecSays(env, s, b, q, portal, n, ps);
    }
  }

  /** Describe fails, Execute is dropped, Sync answers. */
  lemma ThereFails(env: Env, s: Session, b: Session, portal: string, f: Sqlite.Failure)
    requires b.out == s.out + [ParseComplete, BindComplete] && Active(b)
    requires var d := Step(env, b, Describe('P', portal)); d.skip && !d.over && d.out == b.out + [ErrorResponse(f)]
    ensures var d := Step(env, b, Describe('P', portal));
            Rest(env, b, portal).out == s.out + ([ParseComplete, BindComplete] + [] + [] + [ErrorResponse(f)] + [ReadyForQuery(d.status)])
  {
    hide HandleDescribe, HandleExecute;
  }

  lemma ThereSays(env: Env, s: Session, b: Session, portal: string, shape: Reply, rows: seq<Reply>, v: Reply)
    requires b.out == s.out + [ParseComplete, BindComplete]
    requires var d := Step(env, b, Describe('P', portal)); var x := Step(env, d, Execute(portal));
             d.out == b.out + [shape] && x.out == d.out + (rows + [v]) && !x.over
    ensures var x := Step(env, Step(env, b, Describe('P', portal)), Execute(portal));
            Rest(env, b, portal).out == s.out + ([ParseComplete, BindComplete] + [shape] + rows + [v] + [ReadyForQuery(x.status)])
  {
    hide HandleDescribe, HandleExecute;
  }

  lemma FailedSays(env: Env, s: Session, b: Session, q: string, portal: string, n: nat, ps: seq<Param>)
    requires Bound(s, b, q, portal, n, ps) && env.driver.prepare(s.link.db.working, q) == Ok(n) && s.status == Failed
    ensures Rest(env, b, portal).out == s.out + ExtendedReplies(env, s, q, ps)
  {
    hide LeadingKeyword, IsRowReturning, CommandTag, Apply, ExecDirect, Rest;
    if EndsBlock(LeadingKeyword(q)) {
      var v := CommandComplete("ROLLBACK");
      assert [] + [v] == [v];
      ThereSays(env, s, b, portal, NoData, [], v);
    } else {
      ThereFails(env, s, b, portal, FailedTransaction);
    }
  }

  lemma ExecSays(env: Env, s: Session, b: Session, q: string, portal: string, n: nat, ps: seq<Param>)
    requires Bound(s, b, q, portal, n, ps) && env.driver.prepare(s.link.db.working, q) == Ok(n)
    requires s.status != Failed && !IsRowReturning(q)
    ensures Rest(env, b, portal).out == s.out + ExtendedReplies(env, s, q, ps)
  {
    hide LeadingKeyword, IsRowReturning, CommandTag, Apply, Rest;
    var y := Apply(env.driver, s.link.db, q, ps).1;
    if n != |ps| {
      ThereFails(env, s, b, portal, WrongArguments(n, |ps|));
    } else if y.failure.Some? {
      ThereFails(env, s, b, portal, y.failure.value);
    } else {
      var v := CommandComplete(CommandTag(q, y.affected, 0));
      assert [] + [v] == [v];
      ThereSays(env, s, b, portal, NoData, [], v);
    }
  }

  lemma StreamSays(env: Env, s: Session, b: Session, q: string, portal: string, n: nat, ps: seq<Param>)
    requires Bound(s, b, q, portal, n, ps) && env.driver.prepare(s.link.db.working, q) == Ok(n)
    requires s.status != Failed && IsRowReturning(q)
    ensures Rest(env, b, portal).out == s.out + ExtendedReplies(env, s, q, ps)
  {
    hide LeadingKeyword, IsRowReturning, CommandTag, Apply, Collect, Rest;
    var y := Apply(env.driver, s.link.db, q, ps).1;
    if n != |ps| {
      ThereFails(env, s, b, portal, WrongArguments(n, |ps|));
    } else {
      match env.driver.columns(s.link.db.working, q)
      case Err(f) => ThereFails(env, s, b, portal, f);
      case Ok(cols) =>
        match Collect(y.rows, y.failure)
        case Err(f) =>
          assert [] + [ErrorResponse(f)] == [ErrorResponse(f)];
          ThereSays(env, s, b, portal, Shape(cols), [], ErrorResponse(f));
        case Ok(rows) =>
          ThereSays(env, s, b, portal, Shape(cols), rows, CommandComplete(CommandTag(q, 0, |rows|)));
    }
  }

  /** What a client reads after any batch. */
  lemma ExtendedSays(env: Env, s: Session, statement: string, portal: string, text: string, ps: seq<Param>)
    requires Conserved(s) && Active(s)
    ensures Run(env, s, Batch(statement, portal, text, ps)).out == s.out + ExtendedReplies(env, s, env.rewrite(text), ps)
  {
    hide Step, Rest, ExtendedVerdict, IsRowReturning, ExtendedReplies, Batch;
    var q := env.rewrite(text);
    BatchRun(env, s, statement, portal, text, ps);
    match env.driver.prepare(s.link.db.working, q)
    case Err(f) => ParseFailureSays(env, s, statement, portal, text, ps);
    case Ok(n) =>
      ParseAndBind(env, s, statement, portal, text, n, ps);
      RestSays(env, s, Step(env, Step(env, s, Parse(statement, text)), Bind(portal, statement, ps)), q, portal, n, ps);
  }

  lemma ParseFailureSays(env: Env, s: Session, statement: string, portal: string, text: string, ps: seq<Param>)
    requires Active(s) && env.driver.prepare(s.link.db.working, env.rewrite(text)).Err?
    ensures Rest(env, Step(env, Step(env, s, Parse(statement, text)), Bind(portal, statement, ps)), portal).out ==
            s.out + ExtendedReplies(env, s, env.rewrite(text), ps)
  {
    hide CountParams, HandleBind, HandleDescribe, HandleExecute, ExtendedVerdict;
    var d := Step(env, s, Parse(statement, text));
    var f := env.driver.prepare(s.link.db.working, env.rewrite(text)).failure;
    assert d.skip && d.out == s.out + [ErrorResponse(f)];
    assert Rest(env, Step(env, d, Bind(portal, statement, ps)), portal) == Step(env, d, Sync);
  }

  // ------------------------------------------------------- single descriptions

  /** The error reply of the extended protocol, after which the session skips. */
  predicate FailsWith(s: Session, t: Session, f: Sqlite.Failure) {
    t.out == s.out + [ErrorResponse(f)] && t.skip && t.status == (if s.status == InTx then Failed else s.status) && t.over == s.over
  }

  /** Nothing ran, and no name, handle or cursor changed. */
  predicate Untouched(s: Session, t: Session) {
    t.stmts == s.stmts && t.portals == s.portals && SameHandles(s.link, t.link) && t.link.db == s.link.db && t.link.log == s.link.log
  }

  /** Describe of a statement names the number of its parameters and its columns without running it; when
      the text has another number of parameters than was counted at Parse, it fails. */
  lemma StatementDescribed(env: Env, s: Session, name: string, n: nat)
    requires Conserved(s) && name in s.stmts && s.stmts[name].handle in s.link.stmts && s.link.stmts[s.stmts[name].handle].inputs == n
    ensures var t := HandleDescribe(env, s, 'S', name); var ps := s.stmts[name]; var q := s.link.stmts[ps.handle].query;
            && Untouched(s, t)
            && (n != ps.nparams ==> FailsWith(s, t, WrongArguments(n, ps.nparams)))
            && (n == ps.nparams ==>
                  match env.driver.columns(s.link.db.working, q)
                  case Err(f) => FailsWith(s, t, f)
                  case Ok(cols) =>
                    t.status == s.status && t.skip == s.skip &&
                    t.out == s.out + [ParameterDescription(n), if cols == [] then NoData else RowDescription(cols)])
  {
    hide Conserved, CloseCursor, OpenCursor, ColumnTypes;
    var ps := s.stmts[name];
    var c := Cursor(s.link.stmts[ps.handle].query, seq(ps.nparams, _ => None), Some(ps.handle), None);
    NextIsNew(s);
    OpenedAndClosed(s.link, c);
    OpenedShows(env.driver, s.link, c);
  }

  lemma OpenedShows(d: Driver, l: Link, c: Cursor)
    ensures var r := OpenCursor(l, c); r.1 == Ok(l.next) && ColumnTypes(d, r.0, l.next) == d.columns(l.db.working, c.query)
  {
  }

  /** A portal whose statement failed fails in the same way at every later Describe or Execute, and
      does not run again. */
  lemma FailureRemembered(env: Env, s: Session, name: string)
    requires s.status != Failed && name in s.portals && s.portals[name].executed && s.portals[name].execErr.Some?
    ensures var f := s.portals[name].execErr.value; var d, x := HandleDescribe(env, s, 'P', name), HandleExecute(env, s, name);
            FailsWith(s, d, f) && Untouched(s, d) && FailsWith(s, x, f) && Untouched(s, x)
  {
    assert s.portals[name := s.portals[name]] == s.portals;
  }

  /** A portal that has run: Describe answers with the columns it had, and Execute, once its rows are gone, with
      the completion alone; neither runs it again. */
  lemma CompletionRepeated(env: Env, s: Session, name: string)
    requires s.status != Failed && name in s.portals && s.portals[name].executed && s.portals[name].execErr.None?
    ensures var p := s.portals[name]; var d, x := HandleDescribe(env, s, 'P', name), HandleExecute(env, s, name);
            && Untouched(s, d) && d.status == s.status && d.skip == s.skip
            && d.out == s.out + [if p.cols == [] then NoData else RowDescription(p.cols)]
            && (p.rows.None? ==>
                  && Untouched(s, x) && x.skip == s.skip
                  && x.out == s.out + [CommandComplete(CommandTag(p.ps.query, if p.result.Some? then p.result.value else 0, 0))])
  {
    hide LeadingKeyword, CommandTag, Drain, Collect;
    assert s.portals[name := s.portals[name]] == s.portals;
  }

  /** A portal that fails when it is described or executed for the first time keeps the error it is answered with. */
  lemma FailureStored(env: Env, s: Session, name: string)
    requires s.status != Failed && name in s.portals && !s.portals[name].executed
    ensures var r := ExecutePortal(env, s.link, s.portals[name]);
            r.2.Some? ==>
              var d, x := HandleDescribe(env, s, 'P', name), HandleExecute(env, s, name);
              && FailsWith(s, d, r.2.value) && FailsWith(s, x, r.2.value)
              && name in d.portals && d.portals[name].executed && d.portals[name].execErr == Some(r.2.value)
              && name in x.portals && x.portals[name].executed && x.portals[name].execErr == Some(r.2.value)
  {
    hide IsRowReturning, LeadingKeyword, Apply, ColumnTypes, Ready;
  }

  /** A blank query, in any state, is only acknowledged. */
  lemma BlankQuery(env: Env, s: Session, text: string)
    requires TrimSpace(env.rewrite(text)) == ""
    ensures HandleQuery(env, s, text) == s.(out := s.out + [EmptyQueryResponse, ReadyForQuery(s.status)])
  {
  }
}

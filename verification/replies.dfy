/** Response discipline: what every message is answered with, over whole runs. */
module Replies {
  import opened Text
  import opened Command
  import opened Sqlite
  import opened SessionSpec

  predicate AllRows(rs: seq<Reply>) {
    forall i :: 0 <= i < |rs| ==> rs[i].DataRow?
  }

  /** Data rows, perhaps described, and the completion that ends them. */
  predicate Rows(rs: seq<Reply>) {
    rs != [] && rs[|rs| - 1].CommandComplete? && AllRows(rs[..|rs| - 1])
  }

  /** What may stand before the ReadyForQuery of a simple query. */
  predicate QueryBody(rs: seq<Reply>) {
    rs == [EmptyQueryResponse] || (|rs| == 1 && rs[0].ErrorResponse?) ||
    Rows(rs) || (rs != [] && rs[0].RowDescription? && Rows(rs[1..]))
  }

  predicate ShapeReply(r: Reply) {
    r.NoData? || r.RowDescription?
  }

  /** The replies to an extended-protocol message that succeeds. */
  predicate Success(m: Message, rs: seq<Reply>) {
    match m
    case Parse(_, _) => rs == [ParseComplete]
    case Bind(_, _, _) => rs == [BindComplete]
    case Describe(objectType, _) =>
      (objectType == 'S' && |rs| == 2 && rs[0].ParameterDescription? && ShapeReply(rs[1])) ||
      (objectType == 'P' && |rs| == 1 && ShapeReply(rs[0]))
    case Execute(_) => Rows(rs)
    case Close(_, _) => rs == [CloseComplete]
    case _ => rs == []
  }

  predicate IsError(rs: seq<Reply>) {
    |rs| == 1 && rs[0].ErrorResponse?
  }

  /** t is s after these replies. */
  predicate Says(s: Session, t: Session, rs: seq<Reply>) {
    t.out == s.out + rs
  }

  lemma {:induction false} CollectedRows(rows: seq<Scanned>, failure: Option<Failure>)
    ensures Collect(rows, failure).Ok? ==>
              AllRows(Collect(rows, failure).value) && |Collect(rows, failure).value| == |rows| && failure.None?
  {
    if rows != [] {
      CollectedRows(rows[1..], failure);
    }
  }

  // ---------------------------------------------------------------- per message

  lemma StreamAnswers(env: Env, s: Session, q: string) returns (rs: seq<Reply>)
    ensures Says(s, StreamSimple(env, s, q), rs + [ReadyForQuery(StreamSimple(env, s, q).status)]) && QueryBody(rs)
    ensures StreamSimple(env, s, q).skip == s.skip && StreamSimple(env, s, q).over == s.over
  {
    hide CommandTag, Drain, Direct, ColumnTypes, Collect, AfterError, QueryBody;
    var r := QueryDirect(env.driver, s.link, q);
    OneErrorBody();
    if r.1.Err? {
      rs := [ErrorResponse(r.1.failure)];
    } else {
      var cols := ColumnTypes(env.driver, r.0, r.1.value);
      var d := Drain(env.driver, r.0, r.1.value);
      var c := Collect(d.1.rows, d.1.failure);
      if cols.Err? {
        rs := [ErrorResponse(cols.failure)];
      } else if c.Err? {
        rs := [ErrorResponse(c.failure)];
      } else {
        CollectedRows(d.1.rows, d.1.failure);
        var done := CommandComplete(CommandTag(q, 0, |c.value|));
        rs := RowsBody(cols.value, c.value, done, ReadyForQuery(s.status));
      }
    }
  }

  lemma OneErrorBody()
    ensures forall f: Failure :: QueryBody([ErrorResponse(f)])
  {
  }

  lemma RowsBody(cols: seq<Column>, rows: seq<Reply>, done: Reply, ready: Reply) returns (rs: seq<Reply>)
    requires AllRows(rows) && done.CommandComplete?
    ensures (if cols != [] then [RowDescription(cols)] else []) + rows + [done, ready] == rs + [ready] && QueryBody(rs)
  {
    var head := if cols != [] then [RowDescription(cols)] else [];
    rs := head + rows + [done];
    assert (rows + [done])[..|rows|] == rows;
    assert head != [] ==> rs[1..] == rows + [done];
    assert head == [] ==> rs == rows + [done];
  }

  lemma QueryAnswers(env: Env, s: Session, text: string) returns (rs: seq<Reply>)
    ensures var t := HandleQuery(env, s, text);
            Says(s, t, rs + [ReadyForQuery(t.status)]) && QueryBody(rs) && t.skip == s.skip && t.over == s.over
  {
    hide CommandTag, LeadingKeyword, IsRowReturning, TrimSpace, StreamSimple, ExecDirect;
    var q := env.rewrite(text);
    if TrimSpace(q) == "" {
      rs := [EmptyQueryResponse];
    } else if s.status == Failed {
      rs := if EndsBlock(LeadingKeyword(q)) then [CommandComplete("ROLLBACK")] else [ErrorResponse(FailedTransaction)];
    } else if !IsRowReturning(q) {
      var r := ExecDirect(env.driver, s.link, q).1;
      rs := if r.Err? then [ErrorResponse(r.failure)] else [CommandComplete(CommandTag(q, r.value, 0))];
    } else {
      rs := StreamAnswers(env, s, q);
    }
  }

  lemma ExecuteAnswers(env: Env, s: Session, name: string) returns (rs: seq<Reply>)
    requires !s.skip
    ensures var t := HandleExecute(env, s, name);
            Says(s, t, rs) && t.over == s.over && (if t.skip then IsError(rs) else Rows(rs))
  {
    hide CommandTag, LeadingKeyword, IsRowReturning, ExecutePortal, Drain, ExecDirect, Collect;
    rs := HandleExecute(env, s, name).out[|s.out|..];
    if name in s.portals && s.status != Failed {
      var r := ExecutePortal(env, s.link, s.portals[name]);
      if r.2.None? && r.1.rows.Some? {
        var d := Drain(env.driver, r.0, r.1.rows.value);
        CollectedRows(d.1.rows, d.1.failure);
      }
    }
  }

  lemma DescribeStatementAnswers(env: Env, s: Session, ps: Statement) returns (rs: seq<Reply>)
    requires !s.skip
    ensures var t := DescribeStatement(env, s, ps);
            Says(s, t, rs) && t.over == s.over &&
            if t.skip then IsError(rs) else |rs| == 2 && rs[0].ParameterDescription? && ShapeReply(rs[1])
  {
    hide QueryStmt, ColumnTypes, CloseCursor, AfterError;
    var r := QueryStmt(s.link, ps.handle, seq(ps.nparams, _ => None), None);
    if r.1.Err? {
      rs := [ErrorResponse(r.1.failure)];
    } else {
      var cols := ColumnTypes(env.driver, r.0, r.1.value);
      rs := if cols.Err? then [ErrorResponse(cols.failure)] else [ParameterDescription(ps.nparams), Shape(cols.value)];
    }
  }

  lemma DescribePortalAnswers(env: Env, s: Session, name: string) returns (rs: seq<Reply>)
    requires !s.skip && name in s.portals
    ensures var t := DescribePortal(env, s, name);
            Says(s, t, rs) && t.over == s.over && if t.skip then IsError(rs) else |rs| == 1 && ShapeReply(rs[0])
  {
    hide LeadingKeyword, EndsBlock, ExecutePortal, AfterError;
    var p := s.portals[name];
    if s.status == Failed {
      rs := [if EndsBlock(LeadingKeyword(p.ps.query)) then NoData else ErrorResponse(FailedTransaction)];
    } else {
      var r := ExecutePortal(env, s.link, p);
      rs := [if r.2.Some? then ErrorResponse(r.2.value) else Shape(r.1.cols)];
    }
  }

  lemma DescribeAnswers(env: Env, s: Session, objectType: char, name: string) returns (rs: seq<Reply>)
    requires !s.skip
    ensures var t := HandleDescribe(env, s, objectType, name);
            Says(s, t, rs) && t.over == s.over && (if t.skip then IsError(rs) else Success(Describe(objectType, name), rs))
  {
    hide DescribeStatement, DescribePortal, AfterError, ShapeReply;
    if objectType == 'S' && name in s.stmts {
      rs := DescribeStatementAnswers(env, s, s.stmts[name]);
    } else if objectType == 'P' && name in s.portals {
      rs := DescribePortalAnswers(env, s, name);
    } else {
      rs := [ErrorResponse(if objectType == 'S' then NoSuchStatement(name)
                           else if objectType == 'P' then NoSuchPortal(name) else BadDescribe(objectType))];
    }
  }

  /** Every message that is not dropped is answered by just its own replies: a simple query by
      one body and ReadyForQuery, a Sync by ReadyForQuery, any other either by its success
      replies or by a single error after which the session skips. */
  lemma StepAnswers(env: Env, s: Session, m: Message) returns (rs: seq<Reply>)
    requires !s.over && (s.skip ==> m.Sync?)
    ensures var t := Step(env, s, m);
            && Says(s, t, rs)
            && (m.Query? ==> rs != [] && QueryBody(rs[..|rs| - 1]) && rs[|rs| - 1] == ReadyForQuery(t.status) && !t.skip)
            && (m.Sync? ==> rs == [ReadyForQuery(t.status)] && !t.skip && t.status == s.status)
            && (!m.Query? && !m.Sync? ==> if t.skip then IsError(rs) else Success(m, rs))
            && (t.over <==> m.Terminate? || m.Unexpected?)
  {
    hide HandleQuery, HandleExecute, HandleDescribe, CountParams, Prepare;
    match m
    case Query(text) =>
      var body := QueryAnswers(env, s, text);
      rs := body + [ReadyForQuery(HandleQuery(env, s, text).status)];
      assert rs[..|rs| - 1] == body;
    case Execute(portal) => rs := ExecuteAnswers(env, s, portal);
    case Describe(objectType, name) => rs := DescribeAnswers(env, s, objectType, name);
    case Parse(name, text) => rs := Step(env, s, m).out[|s.out|..];
    case Bind(_, _, _) => rs := Step(env, s, m).out[|s.out|..];
    case Close(_, _) => rs := [CloseComplete];
    case Sync => rs := [ReadyForQuery(s.status)];
    case _ => rs := [];
  }

  // ------------------------------------------------------------------- whole runs

  function Readies(rs: seq<Reply>): nat {
    if rs == [] then 0 else Readies(rs[..|rs| - 1]) + if rs[|rs| - 1].ReadyForQuery? then 1 else 0
  }

  lemma {:induction false} ReadiesAppend(a: seq<Reply>, b: seq<Reply>)
    ensures Readies(a + b) == Readies(a) + Readies(b)
    decreases |b|
  {
    if b == [] {
      assert a + b == a;
    } else {
      assert (a + b)[..|a + b| - 1] == a + b[..|b| - 1];
      ReadiesAppend(a, b[..|b| - 1]);
    }
  }

  lemma {:induction false} NoReadies(rs: seq<Reply>)
    requires forall i :: 0 <= i < |rs| ==> !rs[i].ReadyForQuery?
    ensures Readies(rs) == 0
    decreases |rs|
  {
    if rs != [] {
      NoReadies(rs[..|rs| - 1]);
    }
  }

  lemma RowsHaveNoReady(rs: seq<Reply>)
    requires Rows(rs)
    ensures Readies(rs) == 0
  {
    assert forall i :: 0 <= i < |rs| - 1 ==> rs[i] == rs[..|rs| - 1][i];
    NoReadies(rs);
  }

  lemma BodyHasNoReady(rs: seq<Reply>)
    requires QueryBody(rs)
    ensures Readies(rs) == 0
  {
    if Rows(rs) {
      RowsHaveNoReady(rs);
    } else if rs[0].RowDescription? {
      RowsHaveNoReady(rs[1..]);
      assert rs == [rs[0]] + rs[1..];
      NoReadies([rs[0]]);
      ReadiesAppend([rs[0]], rs[1..]);
    } else {
      NoReadies(rs);
    }
  }

  /** Whether the message makes the session ready again: a Sync, or a simple query not dropped. */
  predicate Recovers(s: Session, m: Message) {
    !s.over && (m.Sync? || (m.Query? && !s.skip))
  }

  lemma AnswersReadies(m: Message, skip: bool, rs: seq<Reply>)
    requires m.Query? ==> rs != [] && QueryBody(rs[..|rs| - 1]) && rs[|rs| - 1].ReadyForQuery?
    requires m.Sync? ==> |rs| == 1 && rs[0].ReadyForQuery?
    requires !m.Query? && !m.Sync? ==> if skip then IsError(rs) else Success(m, rs)
    ensures Readies(rs) == if m.Query? || m.Sync? then 1 else 0
  {
    if m.Query? {
      BodyHasNoReady(rs[..|rs| - 1]);
    } else if m.Sync? {
      NoReadies(rs[..0]);
    } else if !skip && m.Execute? {
      RowsHaveNoReady(rs);
    } else {
      NoReadies(rs);
    }
  }

  lemma StepReadies(env: Env, s: Session, m: Message)
    ensures Readies(Step(env, s, m).out) == Readies(s.out) + if Recovers(s, m) then 1 else 0
  {
    if !s.over && (s.skip ==> m.Sync?) {
      hide Step, QueryBody, Success, IsError, Readies;
      var rs := StepAnswers(env, s, m);
      ReadiesAppend(s.out, rs);
      AnswersReadies(m, Step(env, s, m).skip, rs);
    }
  }

  function Recoveries(env: Env, s: Session, msgs: seq<Message>): nat
    decreases |msgs|
  {
    if msgs == [] then 0
    else (if Recovers(s, msgs[0]) then 1 else 0) + Recoveries(env, Step(env, s, msgs[0]), msgs[1..])
  }

  /** Over any run there is one ReadyForQuery for every Sync and every simple query not dropped. */
  lemma {:induction false} ReadyBalance(env: Env, s: Session, msgs: seq<Message>)
    ensures Readies(Run(env, s, msgs).out) == Readies(s.out) + Recoveries(env, s, msgs)
    decreases |msgs|
  {
    hide Step, Recovers;
    if msgs != [] {
      StepReadies(env, s, msgs[0]);
      ReadyBalance(env, Step(env, s, msgs[0]), msgs[1..]);
    }
  }

  predicate NoSync(msgs: seq<Message>) {
    forall i :: 0 <= i < |msgs| ==> !msgs[i].Sync?
  }

  lemma {:induction false} SkippedRun(env: Env, s: Session, msgs: seq<Message>)
    requires s.skip && NoSync(msgs)
    ensures Run(env, s, msgs) == s
    decreases |msgs|
  {
    hide HandleQuery, HandleParse, HandleBind, HandleDescribe, HandleExecute, HandleClose;
    if msgs != [] {
      assert Step(env, s, msgs[0]) == s;
      SkippedRun(env, s, msgs[1..]);
    }
  }

  /** An error in the extended protocol is the last reply until the next Sync, and whatever
      stands between the two may be deleted or exchanged without any effect. */
  lemma ErrorSilences(env: Env, s: Session, m: Message, dropped: seq<Message>, others: seq<Message>, rest: seq<Message>)
    requires !s.over && !s.skip && Step(env, s, m).skip && NoSync(dropped) && NoSync(others)
    ensures var t := Step(env, s, m);
            && t.out != [] && t.out[..|t.out| - 1] == s.out && t.out[|t.out| - 1].ErrorResponse?
            && Run(env, t, dropped) == t
            && Run(env, s, [m] + dropped + rest) == Run(env, s, [m] + others + rest)
  {
    hide Step;
    var t := Step(env, s, m);
    var rs := StepAnswers(env, s, m);
    assert t.out[..|t.out| - 1] == s.out;
    SkippedRun(env, t, dropped);
    SkippedRun(env, t, others);
    RunAppend(env, s, [m] + dropped, rest);
    RunAppend(env, s, [m] + others, rest);
    RunAppend(env, s, [m], dropped);
    RunAppend(env, s, [m], others);
    assert Run(env, s, [m]) == t by {
      assert [m][1..] == [];
    }
  }
}

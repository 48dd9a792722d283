/** The session of one client as a state machine over frontend messages (PostgreSQL 14
    documentation, sections 53.2.2 and 53.2.3). */
module SessionSpec {
  import opened Text
  import opened Command
  import opened Sqlite

  datatype Status = Idle | InTx | Failed

  datatype Message =
    | Query(text: string)
    | Parse(name: string, text: string)
    | Bind(portal: string, statement: string, params: seq<Param>)
    | Describe(objectType: char, name: string)
    | Execute(portal: string)
    | Close(objectType: char, name: string)
    | Sync
    | Flush
    | Terminate
    | Unexpected

  datatype Reply =
    | EmptyQueryResponse
    | ReadyForQuery(status: Status)
    | CommandComplete(tag: string)
    | ErrorResponse(failure: Failure)
    | ParseComplete
    | BindComplete
    | CloseComplete
    | NoData
    | RowDescription(columns: seq<Column>)
    | ParameterDescription(count: nat)
    | DataRow(values: seq<Option<string>>)

  /** A preparedStatement: the rewritten query, its open handle and its parameter count. */
  datatype Statement = Statement(query: string, handle: nat, nparams: nat)

  /** A boundPortal; id numbers the Binds of the session, rows is the open cursor. */
  datatype Portal = Portal(id: nat, ps: Statement, params: seq<Param>,
                           executed: bool, rows: Option<nat>, cols: seq<Column>,
                           result: Option<int>, execErr: Option<Failure>)

  /** rewrite is the per-connection rewrite of query text. */
  datatype Env = Env(rewrite: string -> string, driver: Driver)

  datatype Session = Session(status: Status, skip: bool, stmts: map<string, Statement>, portals: map<string, Portal>,
                             link: Link, bound: nat, out: seq<Reply>, over: bool)

  function Fresh(content: Content): Session {
    Session(Idle, false, map[], map[], Link(Db(content, content, false), map[], map[], 0, []), 0, [], false)
  }

  function Send(s: Session, replies: seq<Reply>): Session {
    s.(out := s.out + replies)
  }

  // ------------------------------------------------------------- transaction state

  function Noted(status: Status, kw: string): Status {
    if IsTxBegin(kw) then InTx
    else if IsTxCommit(kw) || IsTxRollback(kw) then Idle
    else status
  }

  function AfterError(status: Status): Status {
    if status == InTx then Failed else status
  }

  predicate EndsBlock(kw: string) {
    IsTxCommit(kw) || IsTxRollback(kw)
  }

  /** rollbackFailed: whether ROLLBACK succeeds or not, the session is idle. */
  function RollbackFailed(env: Env, s: Session): Session {
    s.(link := ExecDirect(env.driver, s.link, "ROLLBACK").0, status := Idle)
  }

  function FailSimple(s: Session, f: Failure): Session {
    Send(s.(status := AfterError(s.status)), [ErrorResponse(f), ReadyForQuery(AfterError(s.status))])
  }

  function FailExtended(s: Session, f: Failure): Session {
    Send(s.(status := AfterError(s.status), skip := true), [ErrorResponse(f)])
  }

  // ------------------------------------------------------------------- simple query

  /** The data rows of a cursor, or the first thing that went wrong with it. */
  function Collect(rows: seq<Scanned>, failure: Option<Failure>): Result<seq<Reply>> {
    if rows == [] then (if failure.Some? then Err(failure.value) else Ok([]))
    else
      match rows[0]
      case Unscannable(m) => Err(EngineFailure(m))
      case Row(values) =>
        match Collect(rows[1..], failure)
        case Err(f) => Err(f)
        case Ok(rest) => Ok([DataRow(values)] + rest)
  }

  function ExecSimple(env: Env, s: Session, q: string): Session {
    var r := ExecDirect(env.driver, s.link, q);
    var s1 := s.(link := r.0);
    match r.1
    case Err(f) => FailSimple(s1, f)
    case Ok(affected) =>
      var status := Noted(s.status, LeadingKeyword(q));
      Send(s1.(status := status), [CommandComplete(CommandTag(q, affected, 0)), ReadyForQuery(status)])
  }

  function StreamSimple(env: Env, s: Session, q: string): Session {
    var r := QueryDirect(env.driver, s.link, q);
    match r.1
    case Err(f) => FailSimple(s, f)
    case Ok(c) => StreamCursor(env, s.(link := r.0), q, c)
  }

  function StreamCursor(env: Env, s: Session, q: string, c: nat): Session
  {
    match ColumnTypes(env.driver, s.link, c)
    case Err(f) => FailSimple(s.(link := CloseCursor(s.link, c)), f)
    case Ok(cols) =>
      var d := Drain(env.driver, s.link, c);
      var s1 := s.(link := CloseCursor(d.0, c));
      match Collect(d.1.rows, d.1.failure)
      case Err(f) => FailSimple(s1, f)
      case Ok(rows) =>
        Send(s1, (if cols != [] then [RowDescription(cols)] else []) + rows +
                 [CommandComplete(CommandTag(q, 0, |rows|)), ReadyForQuery(s.status)])
  }

  /** A direct query, once opened, runs when drained. */
  lemma StreamOpened(env: Env, s: Session, q: string)
    requires Direct(env.driver, s.link, q).Ok?
    ensures var c := s.link.next; var l := OpenCursor(s.link, Cursor(q, [], None, None)).0;
            && QueryDirect(env.driver, s.link, q) == (l, Ok(c))
            && ColumnTypes(env.driver, l, c) == env.driver.columns(s.link.db.working, q)
            && Drain(env.driver, l, c) == RunNow(env.driver, l, q, [], None)
            && l.db == s.link.db && l.log == s.link.log && l.stmts == s.link.stmts
  {
  }

  /** What a streamed query does to the connection, and that it touches no names. */
  lemma StreamLinks(env: Env, s: Session, q: string)
    ensures var t := StreamSimple(env, s, q);
            && t.stmts == s.stmts && t.portals == s.portals && t.bound == s.bound && t.skip == s.skip && t.over == s.over
            && var c := s.link.next; var l := OpenCursor(s.link, Cursor(q, [], None, None)).0;
               t.link in [s.link, CloseCursor(l, c), CloseCursor(RunNow(env.driver, l, q, [], None).0, c)]
  {
    hide CommandTag, Collect, ColumnTypes, Drain, Direct, RunNow;
    if Direct(env.driver, s.link, q).Ok? {
      StreamOpened(env, s, q);
    }
  }

  function HandleQuery(env: Env, s: Session, text: string): Session {
    var q := env.rewrite(text);
    if TrimSpace(q) == "" then Send(s, [EmptyQueryResponse, ReadyForQuery(s.status)])
    else if s.status == Failed then
      if EndsBlock(LeadingKeyword(q)) then
        Send(RollbackFailed(env, s), [CommandComplete("ROLLBACK"), ReadyForQuery(Idle)])
      else Send(s, [ErrorResponse(FailedTransaction), ReadyForQuery(Failed)])
    else if !IsRowReturning(q) then ExecSimple(env, s, q)
    else StreamSimple(env, s, q)
  }

  // ------------------------------------------------------------------ extended query

  function HandleParse(env: Env, s: Session, name: string, text: string): Session {
    var q := env.rewrite(text);
    var r := Prepare(env.driver, s.link, q);
    match r.1
    case Err(f) => FailExtended(s, f)
    case Ok(h) =>
      var l := if name in s.stmts then CloseStmt(r.0, s.stmts[name].handle) else r.0;
      Send(s.(link := l, stmts := s.stmts[name := Statement(q, h, CountParams(q))]), [ParseComplete])
  }

  /** boundPortal.close */
  function ClosePortal(l: Link, p: Portal): Link {
    if p.rows.Some? then CloseCursor(l, p.rows.value) else l
  }

  function HandleBind(s: Session, portal: string, statement: string, params: seq<Param>): Session {
    if statement !in s.stmts then FailExtended(s, NoSuchStatement(statement))
    else
      var l := if portal in s.portals then ClosePortal(s.link, s.portals[portal]) else s.link;
      var p := Portal(s.bound, s.stmts[statement], params, false, None, [], None, None);
      Send(s.(link := l, portals := s.portals[portal := p], bound := s.bound + 1), [BindComplete])
  }

  /** boundPortal.execute: the statement runs at most once. */
  function ExecutePortal(env: Env, l: Link, p: Portal): (Link, Portal, Option<Failure>) {
    if p.executed then (l, p, p.execErr)
    else if !IsRowReturning(p.ps.query) then
      var r := ExecStmt(env.driver, l, p.ps.handle, p.params, Some(p.id));
      match r.1
      case Err(f) => (r.0, p.(executed := true, execErr := Some(f)), Some(f))
      case Ok(n) => (r.0, p.(executed := true, result := Some(n)), None)
    else
      var r := QueryStmt(l, p.ps.handle, p.params, Some(p.id));
      match r.1
      case Err(f) => (r.0, p.(executed := true, execErr := Some(f)), Some(f))
      case Ok(c) =>
        match ColumnTypes(env.driver, r.0, c)
        case Err(f) => (CloseCursor(r.0, c), p.(executed := true, execErr := Some(f)), Some(f))
        case Ok(cols) => (r.0, p.(executed := true, rows := Some(c), cols := cols), None)
  }

  function Shape(cols: seq<Column>): Reply {
    if cols == [] then NoData else RowDescription(cols)
  }

  function DescribeStatement(env: Env, s: Session, ps: Statement): Session {
    var r := QueryStmt(s.link, ps.handle, seq(ps.nparams, _ => None), None);
    match r.1
    case Err(f) => FailExtended(s, f)
    case Ok(c) =>
      var s1 := s.(link := CloseCursor(r.0, c));
      match ColumnTypes(env.driver, r.0, c)
      case Err(f) => FailExtended(s1, f)
      case Ok(cols) => Send(s1, [ParameterDescription(ps.nparams), Shape(cols)])
  }

  function DescribePortal(env: Env, s: Session, name: string): Session
    requires name in s.portals
  {
    var p := s.portals[name];
    if s.status == Failed then
      if EndsBlock(LeadingKeyword(p.ps.query)) then Send(s, [NoData]) else FailExtended(s, FailedTransaction)
    else
      var r := ExecutePortal(env, s.link, p);
      var s1 := s.(link := r.0, portals := s.portals[name := r.1]);
      if r.2.Some? then FailExtended(s1, r.2.value) else Send(s1, [Shape(r.1.cols)])
  }

  function HandleDescribe(env: Env, s: Session, objectType: char, name: string): Session {
    if objectType == 'S' then
      if name !in s.stmts then FailExtended(s, NoSuchStatement(name)) else DescribeStatement(env, s, s.stmts[name])
    else if objectType == 'P' then
      if name !in s.portals then FailExtended(s, NoSuchPortal(name)) else DescribePortal(env, s, name)
    else FailExtended(s, BadDescribe(objectType))
  }

  /** The reply to Execute once the statement has run and its rows are collected. */
  function Completed(s: Session, p: Portal, rows: seq<Reply>): Session {
    var affected := if p.result.Some? then p.result.value else 0;
    Send(s.(status := Noted(s.status, LeadingKeyword(p.ps.query))),
         rows + [CommandComplete(CommandTag(p.ps.query, affected, |rows|))])
  }

  /** Streaming the rows of an executed portal; its cursor is closed whatever happens. */
  function StreamPortal(env: Env, s: Session, name: string): Session
    requires name in s.portals
  {
    var p := s.portals[name];
    if p.rows.None? then Completed(s, p, [])
    else
      var d := Drain(env.driver, s.link, p.rows.value);
      var closed := p.(rows := None);
      var s1 := s.(link := CloseCursor(d.0, p.rows.value), portals := s.portals[name := closed]);
      match Collect(d.1.rows, d.1.failure)
      case Err(f) => FailExtended(s1, f)
      case Ok(rows) => Completed(s1, closed, rows)
  }

  function HandleExecute(env: Env, s: Session, name: string): Session {
    if name !in s.portals then FailExtended(s, NoSuchPortal(name))
    else
      var p := s.portals[name];
      if s.status == Failed then
        if EndsBlock(LeadingKeyword(p.ps.query)) then Send(RollbackFailed(env, s), [CommandComplete("ROLLBACK")])
        else FailExtended(s, FailedTransaction)
      else
        var r := ExecutePortal(env, s.link, p);
        var s1 := s.(link := r.0, portals := s.portals[name := r.1]);
        if r.2.Some? then FailExtended(s1, r.2.value) else StreamPortal(env, s1, name)
  }

  function HandleClose(s: Session, objectType: char, name: string): Session {
    if objectType == 'S' && name in s.stmts then
      Send(s.(link := CloseStmt(s.link, s.stmts[name].handle), stmts := s.stmts - {name}), [CloseComplete])
    else if objectType == 'P' && name in s.portals then
      Send(s.(link := ClosePortal(s.link, s.portals[name]), portals := s.portals - {name}), [CloseComplete])
    else Send(s, [CloseComplete])
  }

  // --------------------------------------------------------------------- the loop

  /** One message through serveConn: after an extended-protocol error everything up to
      the next Sync is dropped, Terminate included. */
  function Step(env: Env, s: Session, m: Message): Session {
    if s.over || (s.skip && !m.Sync?) then s
    else
      match m
      case Query(text) => HandleQuery(env, s, text)
      case Parse(name, text) => HandleParse(env, s, name, text)
      case Bind(portal, statement, params) => HandleBind(s, portal, statement, params)
      case Describe(objectType, name) => HandleDescribe(env, s, objectType, name)
      case Execute(portal) => HandleExecute(env, s, portal)
      case Close(objectType, name) => HandleClose(s, objectType, name)
      case Sync => Send(s.(skip := false), [ReadyForQuery(s.status)])
      case Flush => s
      case Terminate => s.(over := true)
      case Unexpected => s.(over := true)
  }

  function Run(env: Env, s: Session, msgs: seq<Message>): Session
    decreases |msgs|
  {
    if msgs == [] then s else Run(env, Step(env, s, msgs[0]), msgs[1..])
  }

  lemma {:induction false} RunAppend(env: Env, s: Session, a: seq<Message>, b: seq<Message>)
    ensures Run(env, s, a + b) == Run(env, Run(env, s, a), b)
    decreases |a|
  {
    hide Step;
    if a == [] {
      assert a + b == b;
    } else {
      assert (a + b)[1..] == a[1..] + b;
      RunAppend(env, Step(env, s, a[0]), a[1..], b);
    }
  }
}

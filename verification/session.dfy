/** The session as the program runs it: objects whose handlers update their fields. Every
    handler is shown to do what SessionSpec says. */
module Session {
  import opened Text
  import opened Command
  import opened Sqlite
  import opened SessionSpec
  import opened Resources

  /** The SQLite connection pinned to a session, shared by its statements and cursors. */
  class SqlConn {
    const driver: Driver
    var link: Link

    constructor (driver: Driver, content: Content)
      ensures this.driver == driver && link == Fresh(content).link
    {
      this.driver := driver;
      link := Link(Db(content, content, false), map[], map[], 0, []);
    }

    method PrepareContext(q: string) returns (r: Result<nat>)
      modifies this
      ensures (link, r) == Prepare(driver, old(link), q)
    {
      var p := Prepare(driver, link, q);
      link, r := p.0, p.1;
    }

    method ExecContext(q: string) returns (r: Result<int>)
      modifies this
      ensures (link, r) == ExecDirect(driver, old(link), q)
    {
      var p := ExecDirect(driver, link, q);
      link, r := p.0, p.1;
    }

    method QueryContext(q: string) returns (r: Result<nat>)
      modifies this
      ensures (link, r) == QueryDirect(driver, old(link), q)
    {
      var p := QueryDirect(driver, link, q);
      link, r := p.0, p.1;
    }

    method StmtExec(h: nat, ps: seq<Param>, owner: Option<nat>) returns (r: Result<int>)
      modifies this
      ensures (link, r) == ExecStmt(driver, old(link), h, ps, owner)
    {
      var p := ExecStmt(driver, link, h, ps, owner);
      link, r := p.0, p.1;
    }

    method StmtQuery(h: nat, ps: seq<Param>, owner: Option<nat>) returns (r: Result<nat>)
      modifies this
      ensures (link, r) == QueryStmt(old(link), h, ps, owner)
    {
      var p := QueryStmt(link, h, ps, owner);
      link, r := p.0, p.1;
    }

    method StmtClose(h: nat)
      modifies this
      ensures link == CloseStmt(old(link), h)
    {
      link := CloseStmt(link, h);
    }

    method RowsClose(c: nat)
      modifies this
      ensures link == CloseCursor(old(link), c)
    {
      link := CloseCursor(link, c);
    }

    method RowsDrain(c: nat) returns (y: Yield)
      modifies this
      ensures (link, y) == Drain(driver, old(link), c)
    {
      var p := Drain(driver, link, c);
      link, y := p.0, p.1;
    }
  }

  /** The loop over rows.Next with its two error exits. */
  method ScanRows(y: Yield) returns (r: Result<seq<Reply>>)
    ensures r == Collect(y.rows, y.failure)
  {
    var buf: seq<Reply> := [];
    assert y.rows[0..] == y.rows;
    assert forall rest: seq<Reply> :: [] + rest == rest;
    for i := 0 to |y.rows|
      invariant Collect(y.rows, y.failure) ==
                match Collect(y.rows[i..], y.failure)
                case Err(f) => Err(f)
                case Ok(rest) => Ok(buf + rest)
    {
      assert y.rows[i..][1..] == y.rows[i + 1..];
      match y.rows[i]
      case Unscannable(m) =>
        return Err(EngineFailure(m));
      case Row(values) =>
        var rest := Collect(y.rows[i + 1..], y.failure);
        if rest.Ok? {
          Assoc(buf, [DataRow(values)], rest.value);
        }
        buf := buf + [DataRow(values)];
    }
    if y.failure.Some? {
      return Err(y.failure.value);
    }
    assert buf + [] == buf;
    return Ok(buf);
  }

  class BoundPortal {
    const id: nat
    const ps: Statement
    const params: seq<Param>
    var executed: bool
    var rows: Option<nat>
    var cols: seq<Column>
    var result: Option<int>
    var execErr: Option<Failure>

    constructor (id: nat, ps: Statement, params: seq<Param>)
      ensures Value() == Portal(id, ps, params, false, None, [], None, None)
    {
      this.id, this.ps, this.params := id, ps, params;
      executed, rows, cols, result, execErr := false, None, [], None, None;
    }

    function Value(): Portal
      reads this
    {
      Portal(id, ps, params, executed, rows, cols, result, execErr)
    }

    method Execute(env: Env, conn: SqlConn) returns (err: Option<Failure>)
      requires conn.driver == env.driver
      modifies this, conn
      ensures (conn.link, Value(), err) == ExecutePortal(env, old(conn.link), old(Value()))
    {
      hide IsRowReturning;
      if executed {
        return execErr;
      }
      executed := true;
      if !IsRowReturning(ps.query) {
        var res := conn.StmtExec(ps.handle, params, Some(id));
        if res.Err? {
          execErr := Some(res.failure);
          return execErr;
        }
        result := Some(res.value);
        return None;
      }
      var cursor := conn.StmtQuery(ps.handle, params, Some(id));
      if cursor.Err? {
        execErr := Some(cursor.failure);
        return execErr;
      }
      var types := ColumnTypes(conn.driver, conn.link, cursor.value);
      if types.Err? {
        conn.RowsClose(cursor.value);
        execErr := Some(types.failure);
        return execErr;
      }
      rows, cols := Some(cursor.value), types.value;
      return None;
    }

    method Close(conn: SqlConn)
      modifies this`rows, conn
      ensures conn.link == ClosePortal(old(conn.link), old(Value()))
      ensures Value() == old(Value()).(rows := None)
    {
      if rows.Some? {
        conn.RowsClose(rows.value);
        rows := None;
      }
    }
  }

  class Conn {
    const env: Env
    const sql: SqlConn
    var txStatus: Status
    var skipUntilSync: bool
    var stmts: map<string, Statement>
    var portals: map<string, BoundPortal>
    var bound: nat
    var out: seq<Reply>
    var over: bool

    /** No portal object stands under two names. */
    ghost predicate Valid()
      reads this`portals
    {
      sql.driver == env.driver &&
      forall m, n :: m in portals && n in portals && portals[m] == portals[n] ==> m == n
    }

    ghost function Portals(): map<string, Portal>
      reads this`portals, portals.Values
    {
      map n | n in portals :: portals[n].Value()
    }

    ghost function Value(): Session
      reads this, sql, portals.Values
    {
      Session(txStatus, skipUntilSync, stmts, Portals(), sql.link, bound, out, over)
    }

    lemma PortalNamed(name: string)
      ensures name in portals <==> name in Portals()
      ensures name in portals ==> Portals()[name] == portals[name].Value()
    {
    }

    constructor (env: Env, content: Content)
      ensures Valid() && Value() == Fresh(content) && this.env == env && fresh(sql) && portals == map[]
    {
      this.env := env;
      sql := new SqlConn(env.driver, content);
      txStatus, skipUntilSync, stmts, portals := Idle, false, map[], map[];
      bound, out, over := 0, [], false;
      new;
      assert Portals() == map[];
    }

    method Write(replies: seq<Reply>)
      modifies this`out
      ensures out == old(out) + replies
    {
      out := out + replies;
    }

    method NoteCompleted(kw: string)
      modifies this`txStatus
      ensures txStatus == Noted(old(txStatus), kw)
    {
      if IsTxBegin(kw) {
        txStatus := InTx;
      } else if IsTxCommit(kw) || IsTxRollback(kw) {
        txStatus := Idle;
      }
    }

    method RollbackFailedBlock()
      requires Valid()
      modifies this`txStatus, sql
      ensures Valid() && Value() == RollbackFailed(env, old(Value()))
    {
      hide Portals;
      var _ := sql.ExecContext("ROLLBACK");
      txStatus := Idle;
    }

    method FailSimpleQuery(f: Failure)
      modifies this`txStatus, this`out
      ensures Value() == FailSimple(old(Value()), f)
    {
      if txStatus == InTx {
        txStatus := Failed;
      }
      Write([ErrorResponse(f), ReadyForQuery(txStatus)]);
    }

    method FailExtendedQuery(f: Failure)
      modifies this`txStatus, this`skipUntilSync, this`out
      ensures Value() == FailExtended(old(Value()), f)
    {
      if txStatus == InTx {
        txStatus := Failed;
      }
      skipUntilSync := true;
      Write([ErrorResponse(f)]);
    }

    method ExecSimpleQuery(q: string)
      requires Valid()
      modifies this`txStatus, this`out, sql
      ensures Valid() && Value() == ExecSimple(env, old(Value()), q)
    {
      hide LeadingKeyword, CommandTag, ExecDirect, Portals;
      var res := sql.ExecContext(q);
      if res.Err? {
        FailSimpleQuery(res.failure);
        return;
      }
      NoteCompleted(LeadingKeyword(q));
      Write([CommandComplete(CommandTag(q, res.value, 0)), ReadyForQuery(txStatus)]);
    }

    method StreamSimpleQuery(q: string)
      requires Valid()
      modifies this`txStatus, this`out, sql
      ensures Valid() && Value() == StreamSimple(env, old(Value()), q)
    {
      hide CommandTag, Collect, Drain, QueryDirect, ColumnTypes, Portals;
      var cursor := sql.QueryContext(q);
      if cursor.Err? {
        RefusedQueryKeepsLink(env.driver, old(sql.link), q);
        FailSimpleQuery(cursor.failure);
        return;
      }
      var types := ColumnTypes(sql.driver, sql.link, cursor.value);
      if types.Err? {
        sql.RowsClose(cursor.value);
        FailSimpleQuery(types.failure);
        return;
      }
      var buf: seq<Reply> := [];
      if |types.value| > 0 {
        buf := [RowDescription(types.value)];
      }
      var y := sql.RowsDrain(cursor.value);
      var scanned := ScanRows(y);
      sql.RowsClose(cursor.value);
      if scanned.Err? {
        FailSimpleQuery(scanned.failure);
        return;
      }
      buf := buf + scanned.value;
      buf := buf + [CommandComplete(CommandTag(q, 0, |scanned.value|)), ReadyForQuery(txStatus)];
      Write(buf);
    }

    method HandleQueryMessage(text: string)
      requires Valid()
      modifies this`txStatus, this`out, sql
      ensures Valid() && Value() == HandleQuery(env, old(Value()), text)
    {
      hide LeadingKeyword, IsRowReturning, TrimSpace, ExecSimple, StreamSimple, RollbackFailed, Portals;
      var query := env.rewrite(text);
      if TrimSpace(query) == "" {
        Write([EmptyQueryResponse, ReadyForQuery(txStatus)]);
        return;
      }
      var kw := FindLeadingKeyword(query);
      if txStatus == Failed {
        if IsTxCommit(kw) || IsTxRollback(kw) {
          RollbackFailedBlock();
          Write([CommandComplete("ROLLBACK"), ReadyForQuery(Idle)]);
          return;
        }
        Write([ErrorResponse(FailedTransaction), ReadyForQuery(Failed)]);
        return;
      }
      if !IsRowReturning(query) {
        ExecSimpleQuery(query);
      } else {
        StreamSimpleQuery(query);
      }
    }

    method HandleParseMessage(name: string, text: string)
      requires Valid()
      modifies this`txStatus, this`skipUntilSync, this`out, this`stmts, sql
      ensures Valid() && Value() == HandleParse(env, old(Value()), name, text)
    {
      hide Placeholders, Highest, Portals;
      var query := env.rewrite(text);
      var prepared := sql.PrepareContext(query);
      if prepared.Err? {
        FailExtendedQuery(prepared.failure);
        return;
      }
      if name in stmts {
        sql.StmtClose(stmts[name].handle);
      }
      var n := CountParameters(query);
      stmts := stmts[name := Statement(query, prepared.value, n)];
      Write([ParseComplete]);
    }

    method HandleBindMessage(portal: string, statement: string, params: seq<Param>)
      requires Valid()
      modifies this`txStatus, this`skipUntilSync, this`out, this`portals, this`bound, sql, portals.Values
      ensures Valid() && Value() == HandleBind(old(Value()), portal, statement, params)
      ensures fresh(portals.Values - old(portals.Values))
    {
      hide Portals, ClosePortal;
      if statement !in stmts {
        FailExtendedQuery(NoSuchStatement(statement));
        return;
      }
      PortalNamed(portal);
      ReplacePortal(portal, stmts[statement], params);
      bound := bound + 1;
      Write([BindComplete]);
    }

    /** A new portal takes the place of the one of its name, which is closed. */
    method ReplacePortal(name: string, ps: Statement, params: seq<Param>)
      requires Valid()
      modifies this`portals, sql, portals.Values
      ensures Valid() && fresh(portals.Values - old(portals.Values))
      ensures Value() == old(Value()).(link := if name in old(portals) then ClosePortal(old(sql.link), old(Portals())[name]) else old(sql.link),
                                       portals := old(Portals())[name := Portal(bound, ps, params, false, None, [], None, None)])
    {
      hide Portals, ClosePortal, CloseCursor;
      ghost var before := Portals();
      PortalNamed(name);
      if name in portals {
        ClosePortalNamed(name);
        UpdateTwice(before, name, Portals()[name], Portal(bound, ps, params, false, None, [], None, None));
      }
      var p := new BoundPortal(bound, ps, params);
      AddPortal(name, p);
    }

    method AddPortal(name: string, p: BoundPortal)
      requires Valid() && p !in portals.Values
      modifies this`portals
      ensures Valid() && portals == old(portals)[name := p] && portals.Values <= old(portals.Values) + {p}
      ensures Portals() == old(Portals())[name := p.Value()]
    {
      assert forall n :: n in portals ==> portals[n] in portals.Values;
      portals := portals[name := p];
    }

    method DescribeStatementByName(name: string)
      requires Valid() && name in stmts
      modifies this`txStatus, this`skipUntilSync, this`out, sql
      ensures Valid() && Value() == DescribeStatement(env, old(Value()), stmts[name])
    {
      hide ColumnTypes, Ready, Portals;
      var ps := stmts[name];
      var cursor := sql.StmtQuery(ps.handle, seq(ps.nparams, _ => None), None);
      if cursor.Err? {
        FailExtendedQuery(cursor.failure);
        return;
      }
      var types := ColumnTypes(sql.driver, sql.link, cursor.value);
      sql.RowsClose(cursor.value);
      if types.Err? {
        FailExtendedQuery(types.failure);
        return;
      }
      Write([ParameterDescription(ps.nparams), Shape(types.value)]);
    }

    /** Executing the portal of a name changes that portal and the connection only. */
    method ExecuteNamed(name: string) returns (err: Option<Failure>)
      requires Valid() && name in portals
      modifies sql, portals[name]
      ensures Valid()
      ensures var r := ExecutePortal(env, old(sql.link), old(portals[name].Value()));
              Value() == old(Value()).(link := r.0, portals := old(Portals())[name := r.1]) && err == r.2
    {
      hide ExecutePortal;
      err := portals[name].Execute(env, sql);
      assert Portals() == old(Portals())[name := portals[name].Value()];
    }

    method HandleDescribeMessage(objectType: char, name: string)
      requires Valid()
      modifies this`txStatus, this`skipUntilSync, this`out, sql, portals.Values
      ensures Valid() && Value() == HandleDescribe(env, old(Value()), objectType, name)
    {
      hide LeadingKeyword, ExecutePortal, DescribeStatement, Portals;
      PortalNamed(name);
      if objectType == 'S' {
        if name !in stmts {
          FailExtendedQuery(NoSuchStatement(name));
          return;
        }
        DescribeStatementByName(name);
      } else if objectType == 'P' {
        if name !in portals {
          FailExtendedQuery(NoSuchPortal(name));
          return;
        }
        if txStatus == Failed {
          var kw := FindLeadingKeyword(portals[name].ps.query);
          if IsTxCommit(kw) || IsTxRollback(kw) {
            Write([NoData]);
            return;
          }
          FailExtendedQuery(FailedTransaction);
          return;
        }
        var err := ExecuteNamed(name);
        if err.Some? {
          FailExtendedQuery(err.value);
          return;
        }
        PortalNamed(name);
        Write([Shape(portals[name].cols)]);
      } else {
        FailExtendedQuery(BadDescribe(objectType));
      }
    }

    method ClosePortalNamed(name: string)
      requires Valid() && name in portals
      modifies sql, portals[name]
      ensures Valid()
      ensures Value() == old(Value()).(link := ClosePortal(old(sql.link), old(portals[name].Value())),
                                       portals := old(Portals())[name := old(portals[name].Value()).(rows := None)])
      ensures portals[name].Value() == old(portals[name].Value()).(rows := None)
    {
      portals[name].Close(sql);
      assert Portals() == old(Portals())[name := portals[name].Value()];
    }

    /** The part of Execute after the statement has run. */
    method StreamNamed(name: string, kw: string)
      requires Valid() && name in portals && kw == LeadingKeyword(portals[name].ps.query)
      modifies this`txStatus, this`skipUntilSync, this`out, sql, portals[name]
      ensures Valid() && Value() == StreamPortal(env, old(Value()), name)
    {
      hide LeadingKeyword, CommandTag, Collect, Drain, CloseCursor, Portals;
      PortalNamed(name);
      var p := portals[name];
      var buf: seq<Reply> := [];
      if p.rows.Some? {
        var scanned := CollectNamed(name);
        PortalNamed(name);
        if scanned.Err? {
          FailExtendedQuery(scanned.failure);
          return;
        }
        buf := scanned.value;
      }
      var affected := 0;
      if p.result.Some? {
        affected := p.result.value;
      }
      NoteCompleted(kw);
      Write(buf + [CommandComplete(CommandTag(p.ps.query, affected, |buf|))]);
    }

    /** Reading the open cursor of a portal to its end and closing it. */
    method CollectNamed(name: string) returns (scanned: Result<seq<Reply>>)
      requires Valid() && name in portals && portals[name].rows.Some?
      modifies sql, portals[name]
      ensures Valid()
      ensures var c := old(portals[name].rows.value); var d := Drain(env.driver, old(sql.link), c);
              && scanned == Collect(d.1.rows, d.1.failure)
              && Value() == old(Value()).(link := CloseCursor(d.0, c),
                                          portals := old(Portals())[name := old(portals[name].Value()).(rows := None)])
    {
      hide Collect, Drain, Portals;
      var y := sql.RowsDrain(portals[name].rows.value);
      scanned := ScanRows(y);
      ClosePortalNamed(name);
    }

    method HandleExecuteMessage(name: string)
      requires Valid()
      modifies this`txStatus, this`skipUntilSync, this`out, sql, portals.Values
      ensures Valid() && Value() == HandleExecute(env, old(Value()), name)
    {
      hide LeadingKeyword, ExecutePortal, StreamPortal, RollbackFailed, Portals;
      PortalNamed(name);
      if name !in portals {
        FailExtendedQuery(NoSuchPortal(name));
        return;
      }
      var kw := FindLeadingKeyword(portals[name].ps.query);
      if txStatus == Failed {
        if IsTxCommit(kw) || IsTxRollback(kw) {
          RollbackFailedBlock();
          Write([CommandComplete("ROLLBACK")]);
          return;
        }
        FailExtendedQuery(FailedTransaction);
        return;
      }
      var err := ExecuteNamed(name);
      if err.Some? {
        FailExtendedQuery(err.value);
        return;
      }
      StreamNamed(name, kw);
    }

    method HandleCloseMessage(objectType: char, name: string)
      requires Valid()
      modifies this`out, this`stmts, this`portals, sql, portals.Values
      ensures Valid() && Value() == HandleClose(old(Value()), objectType, name)
      ensures portals.Values <= old(portals.Values)
    {
      hide Portals, CloseStmt, ClosePortal;
      PortalNamed(name);
      match objectType
      case 'S' =>
        if name in stmts {
          sql.StmtClose(stmts[name].handle);
          stmts := stmts - {name};
        }
        Write([CloseComplete]);
      case 'P' =>
        if name in portals {
          ForgetPortal(name);
        }
        Write([CloseComplete]);
      case _ =>
        Write([CloseComplete]);
    }

    method ForgetPortal(name: string)
      requires Valid() && name in portals
      modifies this`portals, sql, portals[name]
      ensures Valid() && portals.Values <= old(portals.Values)
      ensures Value() == old(Value()).(link := ClosePortal(old(sql.link), old(portals[name].Value())),
                                       portals := old(Portals()) - {name})
    {
      hide Portals, ClosePortal;
      ghost var before, closed := Portals(), portals[name].Value().(rows := None);
      ClosePortalNamed(name);
      DropPortal(name);
      RemoveUpdated(before, name, closed);
    }

    method DropPortal(name: string)
      requires Valid()
      modifies this`portals
      ensures Valid() && portals.Values <= old(portals.Values) && Portals() == old(Portals()) - {name}
    {
      portals := portals - {name};
    }

    /** The receive loop over the messages of a connection. */
    method ServeConn(msgs: seq<Message>)
      requires Valid()
      modifies this, sql, portals.Values
      ensures Valid() && Value() == Run(env, old(Value()), msgs)
      ensures fresh(portals.Values - old(portals.Values))
    {
      hide Step;
      assert msgs[..0] == [];
      for i := 0 to |msgs|
        invariant Valid() && Value() == Run(env, old(Value()), msgs[..i])
        invariant fresh(portals.Values - old(portals.Values))
      {
        Receive(msgs[i]);
        assert msgs[..i + 1] == msgs[..i] + [msgs[i]];
        RunAppend(env, old(Value()), msgs[..i], [msgs[i]]);
        assert [msgs[i]][1..] == [];
      }
      assert msgs[..|msgs|] == msgs;
    }

    method Receive(msg: Message)
      requires Valid()
      modifies this, sql, portals.Values
      ensures Valid() && Value() == Step(env, old(Value()), msg)
      ensures fresh(portals.Values - old(portals.Values))
    {
      hide HandleQuery, HandleParse, HandleBind, HandleDescribe, HandleExecute, HandleClose, Portals;
      if over {
        return;
      }
      if skipUntilSync {
        if !msg.Sync? {
          return;
        }
      }
      match msg
      case Query(text) => HandleQueryMessage(text);
      case Parse(name, text) => HandleParseMessage(name, text);
      case Bind(portal, statement, params) => HandleBindMessage(portal, statement, params);
      case Describe(objectType, name) => HandleDescribeMessage(objectType, name);
      case Execute(portal) => HandleExecuteMessage(portal);
      case Close(objectType, name) => HandleCloseMessage(objectType, name);
      case Sync =>
        skipUntilSync := false;
        Write([ReadyForQuery(txStatus)]);
      case Flush =>
      case Terminate => over := true;
      case Unexpected => over := true;
    }

    /** Conn.Close: portals first, then statements. */
    method CloseAll()
      requires Valid()
      modifies sql, portals.Values
      ensures sql.link == Closed(old(Value()))
    {
      hide Portals, Released, Finished;
      ghost var before := Value();
      ClosePortals();
      CloseStmts();
      ClosedAll(before);
    }

    method ClosePortals()
      requires Valid()
      modifies sql, portals.Values
      ensures sql.link == old(sql.link).(cursors := old(sql.link).cursors - Released(old(Portals()), {}))
    {
      ghost var before, link := Portals(), sql.link;
      var names := portals.Keys;
      NoneReleased(before);
      while names != {}
        invariant names <= portals.Keys && portals.Keys == before.Keys
        invariant forall n :: n in names ==> portals[n].rows == before[n].rows
        invariant sql.link == link.(cursors := link.cursors - Released(before, names))
        decreases names
      {
        hide Released, Portals;
        var n :| n in names;
        portals[n].Close(sql);
        ReleasedMore(before, names, n);
        names := names - {n};
      }
    }

    method CloseStmts()
      modifies sql
      ensures sql.link == old(sql.link).(stmts := old(sql.link).stmts - Finished(stmts, {}))
    {
      ghost var link := sql.link;
      var pending := stmts.Keys;
      NoneFinished(stmts);
      while pending != {}
        invariant pending <= stmts.Keys
        invariant sql.link == link.(stmts := link.stmts - Finished(stmts, pending))
        decreases pending
      {
        hide Finished;
        var n :| n in pending;
        sql.StmtClose(stmts[n].handle);
        FinishedMore(stmts, pending, n);
        pending := pending - {n};
      }
    }
  }

  lemma NoneReleased(portals: map<string, Portal>)
    ensures Released(portals, portals.Keys) == {}
  {
  }

  lemma NoneFinished(stmts: map<string, Statement>)
    ensures Finished(stmts, stmts.Keys) == {}
  {
  }

  lemma ClosedAll(s: Session)
    ensures Closed(s) == s.link.(cursors := s.link.cursors - Released(s.portals, {}), stmts := s.link.stmts - Finished(s.stmts, {}))
  {
    assert Finished(s.stmts, {}) == set n | n in s.stmts :: s.stmts[n].handle;
    assert Released(s.portals, {}) == set n | n in s.portals && s.portals[n].rows.Some? :: s.portals[n].rows.value;
  }

  /** A connection from its acceptance to its end: whatever the client sends, nothing stays open. */
  method Serve(env: Env, content: Content, msgs: seq<Message>) returns (c: Conn)
    ensures fresh(c) && c.sql.link == Closed(Run(env, Fresh(content), msgs))
    ensures c.sql.link.stmts == map[] && c.sql.link.cursors == map[]
  {
    hide Run, Closed;
    c := new Conn(env, content);
    c.ServeConn(msgs);
    c.CloseAll();
    NothingLeaks(env, content, msgs);
  }

  /** The cursors of the portals that are no longer in names. */
  ghost function Released(portals: map<string, Portal>, names: set<string>): set<nat> {
    set n | n in portals && n !in names && portals[n].rows.Some? :: portals[n].rows.value
  }

  lemma ReleasedMore(portals: map<string, Portal>, names: set<string>, name: string)
    requires name in portals && name in names
    ensures Released(portals, names - {name}) ==
            Released(portals, names) + if portals[name].rows.Some? then {portals[name].rows.value} else {}
  {
  }

  ghost function Finished(stmts: map<string, Statement>, pending: set<string>): set<nat> {
    set n | n in stmts && n !in pending :: stmts[n].handle
  }

  lemma FinishedMore(stmts: map<string, Statement>, pending: set<string>, name: string)
    requires name in stmts && name in pending
    ensures Finished(stmts, pending - {name}) == Finished(stmts, pending) + {stmts[name].handle}
  {
  }

  lemma RemoveUpdated(portals: map<string, Portal>, name: string, p: Portal)
    ensures portals[name := p] - {name} == portals - {name}
  {
  }

  lemma RefusedQueryKeepsLink(d: Driver, l: Link, q: string)
    requires QueryDirect(d, l, q).1.Err?
    ensures QueryDirect(d, l, q).0 == l
  {
  }
}

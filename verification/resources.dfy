/** Conservation of handles: what the engine has open is what the session holds. */
module Resources {
  import opened Text
  import opened Command
  import opened Sqlite
  import opened SessionSpec

  /** The open statements are those of the map, each under one name only. */
  ghost predicate StmtsOwned(l: Link, stmts: map<string, Statement>) {
    && (forall h :: h in l.stmts ==> h < l.next && exists n :: n in stmts && stmts[n].handle == h)
    && (forall n :: n in stmts ==> stmts[n].handle in l.stmts)
    && (forall m, n :: m in stmts && n in stmts && stmts[m].handle == stmts[n].handle ==> m == n)
  }

  /** The open cursors are those of the portals, each held by one portal only. */
  ghost predicate CursorsOwned(l: Link, portals: map<string, Portal>) {
    && (forall c :: c in l.cursors ==> c < l.next && exists n :: n in portals && portals[n].rows == Some(c))
    && (forall n :: n in portals && portals[n].rows.Some? ==> portals[n].rows.value in l.cursors)
    && (forall m, n :: m in portals && n in portals && portals[m].rows.Some? && portals[m].rows == portals[n].rows ==> m == n)
    && (forall n :: n in portals && !portals[n].executed ==> portals[n].rows.None?)
  }

  ghost predicate Conserved(s: Session) {
    StmtsOwned(s.link, s.stmts) && CursorsOwned(s.link, s.portals)
  }

  /** Same handles, perhaps with a later counter. */
  predicate SameHandles(a: Link, b: Link) {
    a.stmts == b.stmts && a.cursors == b.cursors && a.next <= b.next
  }

  lemma RunsKeepHandles(d: Driver, l: Link, q: string, h: nat, ps: seq<Param>, owner: Option<nat>, c: nat)
    ensures SameHandles(l, ExecDirect(d, l, q).0)
    ensures SameHandles(l, ExecStmt(d, l, h, ps, owner).0)
    ensures SameHandles(l, Drain(d, l, c).0)
  {
  }

  // --------------------------------------------------------------- small steps

  lemma SameKeeps(a: Link, b: Link, stmts: map<string, Statement>, portals: map<string, Portal>)
    requires SameHandles(a, b) && StmtsOwned(a, stmts) && CursorsOwned(a, portals)
    ensures StmtsOwned(b, stmts) && CursorsOwned(b, portals)
  {
  }

  lemma ParseKeeps(l: Link, stmts: map<string, Statement>, name: string, ps: Statement, p: Prepared)
    requires StmtsOwned(l, stmts) && ps.handle == l.next
    ensures var l1 := l.(stmts := l.stmts[l.next := p], next := l.next + 1);
            StmtsOwned(if name in stmts then CloseStmt(l1, stmts[name].handle) else l1, stmts[name := ps])
  {
    var l1 := l.(stmts := l.stmts[l.next := p], next := l.next + 1);
    var l2 := if name in stmts then CloseStmt(l1, stmts[name].handle) else l1;
    var after := stmts[name := ps];
    forall h | h in l2.stmts
      ensures h < l2.next && exists n :: n in after && after[n].handle == h
    {
      if h == l.next {
        assert after[name].handle == h;
      } else {
        var n :| n in stmts && stmts[n].handle == h;
        assert n != name && after[n].handle == h;
      }
    }
  }

  lemma CloseStmtKeeps(l: Link, stmts: map<string, Statement>, name: string)
    requires StmtsOwned(l, stmts) && name in stmts
    ensures StmtsOwned(CloseStmt(l, stmts[name].handle), stmts - {name})
  {
    var l1, after := CloseStmt(l, stmts[name].handle), stmts - {name};
    forall h | h in l1.stmts
      ensures exists n :: n in after && after[n].handle == h
    {
      var n :| n in stmts && stmts[n].handle == h;
      assert n in after;
    }
  }

  /** Replacing a portal that holds no cursor by one that holds none. */
  lemma ReplaceKeeps(l: Link, portals: map<string, Portal>, name: string, p: Portal)
    requires CursorsOwned(l, portals) && p.rows.None?
    requires name in portals ==> portals[name].rows.None?
    ensures CursorsOwned(l, portals[name := p])
  {
    var after := portals[name := p];
    forall c | c in l.cursors
      ensures exists n :: n in after && after[n].rows == Some(c)
    {
      var n :| n in portals && portals[n].rows == Some(c);
      assert after[n].rows == Some(c);
    }
  }

  /** Closing the cursor of a portal and forgetting it. */
  lemma ReleaseKeeps(l: Link, portals: map<string, Portal>, name: string)
    requires CursorsOwned(l, portals) && name in portals
    ensures CursorsOwned(ClosePortal(l, portals[name]), portals[name := portals[name].(rows := None)])
  {
    hide ClosePortal;
    var p := portals[name];
    var l1, after := ClosePortal(l, p), portals[name := p.(rows := None)];
    OnlyClosed(l, p);
    forall c | c in l1.cursors
      ensures c < l1.next && exists n :: n in after && after[n].rows == Some(c)
    {
      StillOpen(l, p, c);
      var n :| n in portals && portals[n].rows == Some(c);
      assert n != name && after[n].rows == Some(c);
    }
    forall n | n in after && after[n].rows.Some?
      ensures after[n].rows.value in l1.cursors
    {
      assert n != name && after[n] == portals[n];
      OthersStay(l, p, after[n].rows.value);
    }
  }

  lemma StillOpen(l: Link, p: Portal, c: nat)
    requires c in ClosePortal(l, p).cursors
    ensures c in l.cursors && p.rows != Some(c)
  {
  }

  lemma OthersStay(l: Link, p: Portal, c: nat)
    requires c in l.cursors && p.rows != Some(c)
    ensures c in ClosePortal(l, p).cursors
  {
  }

  lemma OnlyClosed(l: Link, p: Portal)
    ensures ClosePortal(l, p).next == l.next
  {
  }

  lemma RemoveKeeps(l: Link, portals: map<string, Portal>, name: string)
    requires CursorsOwned(l, portals) && name in portals && portals[name].rows.None?
    ensures CursorsOwned(l, portals - {name})
  {
    var after := portals - {name};
    forall c | c in l.cursors
      ensures exists n :: n in after && after[n].rows == Some(c)
    {
      var n :| n in portals && portals[n].rows == Some(c);
      assert n in after;
    }
  }

  /** A portal without a cursor takes the one just opened. */
  lemma AcquireKeeps(l: Link, portals: map<string, Portal>, name: string, p: Portal, c: Cursor)
    requires CursorsOwned(l, portals) && name in portals && portals[name].rows.None?
    requires p.executed && p.rows == Some(l.next)
    ensures CursorsOwned(OpenCursor(l, c).0, portals[name := p])
  {
    var l1, after := OpenCursor(l, c).0, portals[name := p];
    forall x | x in l1.cursors
      ensures x < l1.next && exists n :: n in after && after[n].rows == Some(x)
    {
      if x == l.next {
        assert after[name].rows == Some(x);
      } else {
        var n :| n in portals && portals[n].rows == Some(x);
        assert n != name && after[n].rows == Some(x);
      }
    }
  }

  /** A cursor opened and closed again leaves no trace but the counter. */
  lemma OpenedAndClosed(l: Link, c: Cursor)
    requires l.next !in l.cursors
    ensures CloseCursor(OpenCursor(l, c).0, l.next) == l.(next := l.next + 1)
  {
  }

  // ------------------------------------------------------------------- handlers

  /** Same names, same handles. */
  predicate SameBooks(s: Session, t: Session) {
    SameHandles(s.link, t.link) && t.stmts == s.stmts && t.portals == s.portals
  }

  lemma NextIsNew(s: Session)
    requires Conserved(s)
    ensures s.link.next !in s.link.cursors && s.link.next !in s.link.stmts
  {
  }

  lemma StreamKeepsBooks(env: Env, s: Session, q: string)
    requires s.link.next !in s.link.cursors
    ensures SameBooks(s, StreamSimple(env, s, q))
  {
    hide StreamSimple;
    StreamLinks(env, s, q);
    OpenedAndClosed(s.link, Cursor(q, [], None, None));
  }

  lemma ExecKeepsBooks(env: Env, s: Session, q: string)
    ensures SameBooks(s, ExecSimple(env, s, q))
    ensures SameBooks(s, RollbackFailed(env, s))
  {
    hide CommandTag, LeadingKeyword;
    RunsKeepHandles(env.driver, s.link, q, 0, [], None, 0);
    RunsKeepHandles(env.driver, s.link, "ROLLBACK", 0, [], None, 0);
  }

  lemma QueryConserves(env: Env, s: Session, text: string)
    requires Conserved(s)
    ensures Conserved(HandleQuery(env, s, text))
  {
    hide IsRowReturning, LeadingKeyword, TrimSpace, Conserved, ExecSimple, StreamSimple, RollbackFailed;
    NextIsNew(s);
    ExecKeepsBooks(env, s, env.rewrite(text));
    StreamKeepsBooks(env, s, env.rewrite(text));
    BooksConserve(s, HandleQuery(env, s, text));
  }

  lemma BooksConserve(s: Session, t: Session)
    requires Conserved(s) && SameBooks(s, t)
    ensures Conserved(t)
  {
  }

  lemma UnexecutedHasNone(s: Session, name: string)
    requires Conserved(s) && name in s.portals
    ensures !s.portals[name].executed ==> s.portals[name].rows.None?
  {
  }

  lemma OpeningKeepsStmts(l: Link, stmts: map<string, Statement>, c: Cursor)
    requires StmtsOwned(l, stmts)
    ensures StmtsOwned(OpenCursor(l, c).0, stmts)
  {
  }

  lemma ExecutePortalConserves(env: Env, s: Session, name: string)
    requires Conserved(s) && name in s.portals
    ensures var r := ExecutePortal(env, s.link, s.portals[name]);
            Conserved(s.(link := r.0, portals := s.portals[name := r.1]))
  {
    hide IsRowReturning, LeadingKeyword, StmtsOwned, CursorsOwned, ColumnTypes;
    var p := s.portals[name];
    var r := ExecutePortal(env, s.link, p);
    NextIsNew(s);
    UnexecutedHasNone(s, name);
    RunsKeepHandles(env.driver, s.link, "", p.ps.handle, p.params, Some(p.id), 0);
    if p.executed {
      assert s.portals[name := r.1] == s.portals;
    } else if r.1.rows.Some? {
      var c := Cursor(s.link.stmts[p.ps.handle].query, p.params, Some(p.ps.handle), Some(p.id));
      AcquireKeeps(s.link, s.portals, name, r.1, c);
      OpeningKeepsStmts(s.link, s.stmts, c);
    } else {
      ReplaceKeeps(s.link, s.portals, name, r.1);
      if QueryStmt(s.link, p.ps.handle, p.params, Some(p.id)).1.Ok? {
        OpenedAndClosed(s.link, Cursor(s.link.stmts[p.ps.handle].query, p.params, Some(p.ps.handle), Some(p.id)));
      }
      SameKeeps(s.link, r.0, s.stmts, s.portals[name := r.1]);
    }
  }

  lemma StreamPortalConserves(env: Env, s: Session, name: string)
    requires Conserved(s) && name in s.portals
    ensures Conserved(StreamPortal(env, s, name))
  {
    hide IsRowReturning, LeadingKeyword, CommandTag, Collect, Drain, StmtsOwned, CursorsOwned;
    var p := s.portals[name];
    if p.rows.Some? {
      var d := Drain(env.driver, s.link, p.rows.value).0;
      RunsKeepHandles(env.driver, s.link, "", 0, [], None, p.rows.value);
      SameKeeps(s.link, d, s.stmts, s.portals);
      ReleaseKeeps(d, s.portals, name);
      ClosingKeepsStmts(d, s.stmts, p.rows.value);
    }
  }

  lemma ClosingKeepsStmts(l: Link, stmts: map<string, Statement>, c: nat)
    requires StmtsOwned(l, stmts)
    ensures StmtsOwned(CloseCursor(l, c), stmts)
  {
  }

  lemma ExecuteConserves(env: Env, s: Session, name: string)
    requires Conserved(s)
    ensures Conserved(HandleExecute(env, s, name))
  {
    hide IsRowReturning, LeadingKeyword, CommandTag, Collect, Drain, StmtsOwned, CursorsOwned, ExecutePortal, StreamPortal, ExecDirect;
    RunsKeepHandles(env.driver, s.link, "ROLLBACK", 0, [], None, 0);
    SameKeeps(s.link, RollbackFailed(env, s).link, s.stmts, s.portals);
    if name in s.portals {
      ExecutePortalConserves(env, s, name);
      var r := ExecutePortal(env, s.link, s.portals[name]);
      StreamPortalConserves(env, s.(link := r.0, portals := s.portals[name := r.1]), name);
    }
  }

  lemma DescribeConserves(env: Env, s: Session, objectType: char, name: string)
    requires Conserved(s)
    ensures Conserved(HandleDescribe(env, s, objectType, name))
  {
    hide IsRowReturning, LeadingKeyword, StmtsOwned, CursorsOwned, ExecutePortal;
    NextIsNew(s);
    if objectType == 'S' && name in s.stmts {
      var ps := s.stmts[name];
      var args: seq<Param> := seq(ps.nparams, _ => None);
      if QueryStmt(s.link, ps.handle, args, None).1.Ok? {
        OpenedAndClosed(s.link, Cursor(s.link.stmts[ps.handle].query, args, Some(ps.handle), None));
        SameKeeps(s.link, s.link.(next := s.link.next + 1), s.stmts, s.portals);
      }
    } else if objectType == 'P' && name in s.portals {
      ExecutePortalConserves(env, s, name);
    }
  }

  lemma BindConserves(s: Session, portal: string, statement: string, params: seq<Param>)
    requires Conserved(s)
    ensures Conserved(HandleBind(s, portal, statement, params))
  {
    if statement in s.stmts {
      var p := Portal(s.bound, s.stmts[statement], params, false, None, [], None, None);
      if portal in s.portals {
        var released := s.portals[portal].(rows := None);
        ReleaseKeeps(s.link, s.portals, portal);
        ReplaceKeeps(ClosePortal(s.link, s.portals[portal]), s.portals[portal := released], portal, p);
        assert s.portals[portal := released][portal := p] == s.portals[portal := p];
      } else {
        ReplaceKeeps(s.link, s.portals, portal, p);
      }
    }
  }

  lemma CloseConserves(s: Session, objectType: char, name: string)
    requires Conserved(s)
    ensures Conserved(HandleClose(s, objectType, name))
  {
    hide StmtsOwned, CursorsOwned;
    if objectType == 'S' && name in s.stmts {
      CloseStmtKeeps(s.link, s.stmts, name);
      SameCursorsOwned(s.link, CloseStmt(s.link, s.stmts[name].handle), s.portals);
    } else if objectType == 'P' && name in s.portals {
      var released := s.portals[name].(rows := None);
      ReleaseKeeps(s.link, s.portals, name);
      RemoveKeeps(ClosePortal(s.link, s.portals[name]), s.portals[name := released], name);
      if s.portals[name].rows.Some? {
        ClosingKeepsStmts(s.link, s.stmts, s.portals[name].rows.value);
      }
      assert s.portals[name := released] - {name} == s.portals - {name};
    }
  }

  lemma ParseConserves(env: Env, s: Session, name: string, text: string)
    requires Conserved(s)
    ensures Conserved(HandleParse(env, s, name, text))
  {
    hide CountParams, StmtsOwned, CursorsOwned;
    var q := env.rewrite(text);
    match env.driver.prepare(s.link.db.working, q)
    case Err(_) =>
    case Ok(n) =>
      ParseKeeps(s.link, s.stmts, name, Statement(q, s.link.next, CountParams(q)), Prepared(q, n));
      SameCursorsOwned(s.link, HandleParse(env, s, name, text).link, s.portals);
  }

  lemma SameCursorsOwned(a: Link, b: Link, portals: map<string, Portal>)
    requires CursorsOwned(a, portals) && b.cursors == a.cursors && a.next <= b.next
    ensures CursorsOwned(b, portals)
  {
  }

  /** Every message, answered or failed at whatever point, keeps the books. */
  lemma StepConserves(env: Env, s: Session, m: Message)
    requires Conserved(s)
    ensures Conserved(Step(env, s, m))
  {
    hide Conserved, HandleQuery, HandleParse, HandleBind, HandleDescribe, HandleExecute, HandleClose;
    match m
    case Query(text) => QueryConserves(env, s, text);
    case Parse(name, text) => ParseConserves(env, s, name, text);
    case Bind(portal, statement, params) => BindConserves(s, portal, statement, params);
    case Describe(objectType, name) => DescribeConserves(env, s, objectType, name);
    case Execute(portal) => ExecuteConserves(env, s, portal);
    case Close(objectType, name) => CloseConserves(s, objectType, name);
    case _ => BooksConserve(s, Step(env, s, m));
  }

  // ------------------------------------------------------------------- whole runs

  lemma {:induction false} RunConserves(env: Env, s: Session, msgs: seq<Message>)
    requires Conserved(s)
    ensures Conserved(Run(env, s, msgs))
    decreases |msgs|
  {
    hide Conserved, Step;
    if msgs != [] {
      StepConserves(env, s, msgs[0]);
      RunConserves(env, Step(env, s, msgs[0]), msgs[1..]);
    }
  }

  /** Conn.Close: every portal is closed, then every statement. */
  function Closed(s: Session): Link {
    s.link.(cursors := s.link.cursors - (set n | n in s.portals && s.portals[n].rows.Some? :: s.portals[n].rows.value),
            stmts := s.link.stmts - (set n | n in s.stmts :: s.stmts[n].handle))
  }

  /** After any run nothing but the named statements and the cursors of portals is open, and
      closing the connection leaves nothing open at all. */
  lemma NothingLeaks(env: Env, content: Content, msgs: seq<Message>)
    ensures Conserved(Run(env, Fresh(content), msgs))
    ensures Closed(Run(env, Fresh(content), msgs)).stmts == map[] && Closed(Run(env, Fresh(content), msgs)).cursors == map[]
  {
    hide Run;
    RunConserves(env, Fresh(content), msgs);
    var s := Run(env, Fresh(content), msgs);
    forall h | h in s.link.stmts
      ensures h in (set n | n in s.stmts :: s.stmts[n].handle)
    {
      var n :| n in s.stmts && s.stmts[n].handle == h;
    }
    forall c | c in s.link.cursors
      ensures c in (set n | n in s.portals && s.portals[n].rows.Some? :: s.portals[n].rows.value)
    {
      var n :| n in s.portals && s.portals[n].rows == Some(c);
      assert s.portals[n].rows.value == c;
    }
    assert Closed(s).stmts.Keys == {} && Closed(s).cursors.Keys == {};
  }
}

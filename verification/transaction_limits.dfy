/** Where the reported status parts from the engine: the exact conditions, one call at a time. */
module TransactionLimits {
  import opened Text
  import opened Command
  import opened Sqlite
  import opened SessionSpec
  import opened Replies
  import opened Transactions

  /** Whether a transaction is open after a statement of this kind succeeds. */
  predicate Opens(kind: Kind, open: bool) {
    kind == Begin || (open && kind == Ordinary)
  }

  /** How a simple query is noted: row-returning statements never are. */
  function NotedAs(q: string): Kind {
    if IsRowReturning(q) then Ordinary else KeywordKind(q)
  }

  /** Whether a simple query will be answered by an error, read off the state before it: the text
      cannot run without arguments, its columns cannot be read, or the engine fails on it. */
  predicate WillFail(env: Env, s: Session, q: string) {
    var y := Apply(env.driver, s.link.db, q, []).1;
    Direct(env.driver, s.link, q).Err? ||
    if IsRowReturning(q) then env.driver.columns(s.link.db.working, q).Err? || Collect(y.rows, y.failure).Err?
    else y.failure.Some?
  }

  lemma Moves(d: Driver, db: Db, q: string, ps: seq<Param>)
    ensures var (after, y) := Apply(d, db, q, ps);
            && (y.failure.None? ==> after.open == Opens(d.kind(q), db.open))
            && (y.failure.Some? && after.open ==> db.open)
            && (d.kind(q) != Ordinary ==> y.rows == [])
  {
  }

  lemma ExecOutcomes(env: Env, s: Session, q: string)
    requires !IsRowReturning(q)
    ensures var t := ExecSimple(env, s, q); var (db, y) := Apply(env.driver, s.link.db, q, []);
            if WillFail(env, s, q) then
              t.status == AfterError(s.status) && (t.link.db == s.link.db || (t.link.db == db && y.failure.Some?))
            else t.status == Noted(s.status, LeadingKeyword(q)) && t.link.db == db && y.failure.None?
  {
    hide LeadingKeyword, IsRowReturning, CommandTag, Apply, Noted, AfterError, Direct;
  }

  lemma ExecAgrees(env: Env, s: Session, q: string)
    requires Agrees(s.status, s.link.db) && s.status != Failed && !IsRowReturning(q)
    ensures var t := ExecSimple(env, s, q); var open := s.link.db.open;
            Agrees(t.status, t.link.db) <==> WillFail(env, s, q) || Opens(env.driver.kind(q), open) == Opens(NotedAs(q), open)
  {
    hide LeadingKeyword, IsRowReturning, Apply, KeywordKind, ExecSimple, WillFail, Noted;
    Moves(env.driver, s.link.db, q, []);
    NotedKind(q, s.status);
    ExecOutcomes(env, s, q);
  }

  lemma StreamOutcomes(env: Env, s: Session, q: string)
    requires IsRowReturning(q)
    ensures var t := StreamSimple(env, s, q); var (db, y) := Apply(env.driver, s.link.db, q, []);
            if WillFail(env, s, q) then
              t.status == AfterError(s.status) && (t.link.db == s.link.db || (t.link.db == db && (y.failure.Some? || y.rows != [])))
            else t.status == s.status && t.link.db == db && y.failure.None?
  {
    hide CommandTag, Apply, ColumnTypes, Collect, Drain, Direct, IsRowReturning;
    if Direct(env.driver, s.link, q).Ok? {
      StreamOpened(env, s, q);
      var y := Apply(env.driver, s.link.db, q, []).1;
      CollectedRows(y.rows, y.failure);
      NothingToCollect(y.rows, y.failure);
    }
  }

  lemma StreamAgrees(env: Env, s: Session, q: string)
    requires Agrees(s.status, s.link.db) && s.status != Failed && IsRowReturning(q)
    ensures var t := StreamSimple(env, s, q); var open := s.link.db.open;
            Agrees(t.status, t.link.db) <==> WillFail(env, s, q) || Opens(env.driver.kind(q), open) == Opens(NotedAs(q), open)
  {
    hide IsRowReturning, Apply, KeywordKind, StreamSimple, WillFail;
    Moves(env.driver, s.link.db, q, []);
    StreamOutcomes(env, s, q);
    assert NotedAs(q) == Ordinary;
    var t := StreamSimple(env, s, q);
    var (db, y) := Apply(env.driver, s.link.db, q, []);
    if WillFail(env, s, q) {
      assert t.link.db == s.link.db || t.link.db == db;
      assert y.failure.Some? || y.rows != [] ==> (db.open ==> s.link.db.open);
      assert t.link.db.open ==> s.link.db.open;
      assert Agrees(t.status, t.link.db);
    } else {
      assert t.link.db.open == Opens(env.driver.kind(q), s.link.db.open);
    }
  }

  lemma NothingToCollect(rows: seq<Scanned>, failure: Option<Sqlite.Failure>)
    ensures rows == [] && failure.None? ==> Collect(rows, failure) == Ok([])
  {
  }

  /** For any statement whatever, tracked or not: a simple query keeps the status true exactly
      when it fails or the engine's reading of it opens or ends a transaction just as the
      session's does. */
  lemma QueryAgreesIff(env: Env, s: Session, text: string)
    requires Agrees(s.status, s.link.db) && s.status != Failed && TrimSpace(env.rewrite(text)) != ""
    ensures var t := HandleQuery(env, s, text); var q := env.rewrite(text); var open := s.link.db.open;
            Agrees(t.status, t.link.db) <==> WillFail(env, s, q) || Opens(env.driver.kind(q), open) == Opens(NotedAs(q), open)
  {
    hide ExecSimple, StreamSimple, IsRowReturning, TrimSpace, KeywordKind, LeadingKeyword, NotedAs, Agrees, WillFail;
    var q := env.rewrite(text);
    if IsRowReturning(q) {
      StreamAgrees(env, s, q);
    } else {
      ExecAgrees(env, s, q);
    }
  }

  /** Describing any portal that has not run keeps the status true exactly when the portal returns
      rows, so that it does not run yet, or cannot run, or fails, or moves no transaction. */
  lemma DescribeAgreesIff(env: Env, s: Session, name: string)
    requires Agrees(s.status, s.link.db) && s.status != Failed && name in s.portals && !s.portals[name].executed
    ensures var t := HandleDescribe(env, s, 'P', name); var p := s.portals[name];
            var ready := Ready(s.link, p.ps.handle, p.params); var open := s.link.db.open;
            Agrees(t.status, t.link.db) <==>
              || IsRowReturning(p.ps.query) || ready.Err?
              || Apply(env.driver, s.link.db, ready.value, p.params).1.failure.Some?
              || Opens(env.driver.kind(ready.value), open) == open
  {
    hide LeadingKeyword, IsRowReturning, CommandTag, Apply, KeywordKind, ColumnTypes, Ready;
    var p := s.portals[name];
    var ready := Ready(s.link, p.ps.handle, p.params);
    if ready.Ok? {
      Moves(env.driver, s.link.db, ready.value, p.params);
    }
  }

  /** Of tracked transaction control: exactly when it cannot run or fails. */
  lemma DescribeControlAgreesIff(env: Env, s: Session, name: string)
    requires Agrees(s.status, s.link.db) && s.status != Failed
    requires TxPortal(s, name) && PortalFits(env, s.link, s.portals[name]) && !s.portals[name].executed
    ensures var t := HandleDescribe(env, s, 'P', name); var p := s.portals[name];
            Agrees(t.status, t.link.db) <==>
              || Ready(s.link, p.ps.handle, p.params).Err?
              || Apply(env.driver, s.link.db, p.ps.query, p.params).1.failure.Some?
  {
    hide LeadingKeyword, IsRowReturning, HandleDescribe, Apply, KeywordKind, Agrees;
    var p := s.portals[name];
    DescribeAgreesIff(env, s, name);
    TxMoves(env.driver, s.link.db, p.ps.query, p.params);
    Moves(env.driver, s.link.db, p.ps.query, p.params);
  }

  lemma TxMoves(d: Driver, db: Db, q: string, ps: seq<Param>)
    requires d.kind(q) != Ordinary
    ensures var (after, y) := Apply(d, db, q, ps);
            if y.failure.None? then after.open != db.open else after.open ==> db.open
  {
  }

  /** Executing once more a portal of transaction control that has run keeps the status true
      exactly when its keyword would not move the status. */
  lemma SecondExecuteAgreesIff(env: Env, s: Session, name: string)
    requires Agrees(s.status, s.link.db) && s.status != Failed
    requires TxPortal(s, name) && Spent(s.portals[name]) && s.portals[name].rows.None?
    ensures var t := HandleExecute(env, s, name);
            && t.link.db == s.link.db
            && (Agrees(t.status, t.link.db) <==> Noted(s.status, LeadingKeyword(s.portals[name].ps.query)) == s.status)
  {
  }

  // ------------------------------------------------------------------- Execute

  /** Whether Execute will answer with an error, read off the state before it. A portal that ran
      without rows has nothing left to fail in. */
  predicate ExecFails(env: Env, s: Session, p: Portal) {
    if p.executed then
      p.execErr.Some? ||
      (p.rows.Some? && var y := Drain(env.driver, s.link, p.rows.value).1; Collect(y.rows, y.failure).Err?)
    else
      var ready := Ready(s.link, p.ps.handle, p.params);
      ready.Err? ||
      var y := Apply(env.driver, s.link.db, ready.value, p.params).1;
      if IsRowReturning(p.ps.query) then env.driver.columns(s.link.db.working, ready.value).Err? || Collect(y.rows, y.failure).Err?
      else y.failure.Some?
  }

  /** What Execute runs in the engine, if anything. */
  function Executes(s: Session, p: Portal): Option<(string, seq<Param>)> {
    if p.executed then
      if p.execErr.None? && p.rows.Some? && p.rows.value in s.link.cursors then
        var c := s.link.cursors[p.rows.value];
        if c.stmt.Some? && c.stmt.value !in s.link.stmts then None else Some((c.query, c.params))
      else None
    else
      var ready := Ready(s.link, p.ps.handle, p.params);
      if ready.Ok? then Some((ready.value, p.params)) else None
  }

  /** How the engine reads what Execute runs; when nothing runs, as no transaction control. */
  function ExecutedKind(env: Env, s: Session, p: Portal): Kind {
    var run := Executes(s, p);
    if run.None? then Ordinary else env.driver.kind(run.value.0)
  }

  /** The state after draining the cursor of an executed portal, or after nothing. */
  lemma StreamedOutcomes(env: Env, s: Session, name: string)
    requires name in s.portals && s.portals[name].executed && s.portals[name].execErr.None?
    ensures var t := StreamPortal(env, s, name); var p := s.portals[name];
            var d := if p.rows.Some? then Drain(env.driver, s.link, p.rows.value) else (s.link, Yield([], 0, None));
            && t.link.db == d.0.db
            && t.status == (if ExecFails(env, s, p) then AfterError(s.status) else Noted(s.status, LeadingKeyword(p.ps.query)))
            && (ExecFails(env, s, p) ==> d.1.failure.Some? || d.1.rows != [])
            && (!ExecFails(env, s, p) ==> d.1.failure.None?)
  {
    hide LeadingKeyword, CommandTag, Collect, Drain, Noted, AfterError;
    var p := s.portals[name];
    if p.rows.Some? {
      var y := Drain(env.driver, s.link, p.rows.value).1;
      CollectedRows(y.rows, y.failure);
      NothingToCollect(y.rows, y.failure);
    }
  }

  /** Draining a cursor moves the transaction as its statement does, if it runs. */
  lemma DrainMoves(d: Driver, l: Link, c: nat)
    ensures var runs := c in l.cursors && !(l.cursors[c].stmt.Some? && l.cursors[c].stmt.value !in l.stmts);
            var kind := if runs then d.kind(l.cursors[c].query) else Ordinary;
            var r := Drain(d, l, c);
            && (r.1.failure.None? ==> r.0.db.open == Opens(kind, l.db.open))
            && (r.1.failure.Some? && r.0.db.open ==> l.db.open)
            && (kind != Ordinary ==> r.1.rows == [])
  {
    hide Apply;
    if c in l.cursors {
      Moves(d, l.db, l.cursors[c].query, l.cursors[c].params);
    }
  }

  /** The status an outcome leaves against the engine's transaction. */
  lemma OutcomeAgrees(status: Status, db: Db, q: string, kind: Kind, fails: bool, after: Db, status': Status, moved: bool)
    requires Agrees(status, db) && status != Failed
    requires status' == if fails then AfterError(status) else Noted(status, LeadingKeyword(q))
    requires moved ==> after.open == Opens(kind, db.open)
    requires !moved ==> fails && (after.open ==> db.open)
    requires fails && moved ==> kind == Ordinary
    ensures Agrees(status', after) <==> fails || Opens(kind, db.open) == Opens(KeywordKind(q), db.open)
  {
    hide LeadingKeyword, KeywordKind;
    NotedKind(q, status);
  }

  lemma ExecutedAgrees(env: Env, s: Session, name: string)
    requires Agrees(s.status, s.link.db) && s.status != Failed && name in s.portals
    requires s.portals[name].executed && s.portals[name].execErr.None?
    ensures var t := StreamPortal(env, s, name); var p := s.portals[name]; var open := s.link.db.open;
            Agrees(t.status, t.link.db) <==>
            ExecFails(env, s, p) || Opens(ExecutedKind(env, s, p), open) == Opens(KeywordKind(p.ps.query), open)
  {
    hide StreamPortal, ExecFails, Drain, LeadingKeyword, KeywordKind, Noted, AfterError, Agrees;
    var t, p := StreamPortal(env, s, name), s.portals[name];
    StreamedOutcomes(env, s, name);
    var fails := ExecFails(env, s, p);
    if p.rows.Some? {
      DrainMoves(env.driver, s.link, p.rows.value);
      var d := Drain(env.driver, s.link, p.rows.value);
      OutcomeAgrees(s.status, s.link.db, p.ps.query, ExecutedKind(env, s, p), fails, t.link.db, t.status, d.1.failure.None?);
    } else {
      OutcomeAgrees(s.status, s.link.db, p.ps.query, Ordinary, fails, t.link.db, t.status, true);
    }
  }

  /** A portal without rows that has not run. */
  lemma RunAgrees(env: Env, s: Session, name: string)
    requires Agrees(s.status, s.link.db) && s.status != Failed && name in s.portals
    requires !s.portals[name].executed && s.portals[name].rows.None? && !IsRowReturning(s.portals[name].ps.query)
    ensures var t := HandleExecute(env, s, name); var p := s.portals[name]; var open := s.link.db.open;
            Agrees(t.status, t.link.db) <==>
            ExecFails(env, s, p) || Opens(ExecutedKind(env, s, p), open) == Opens(KeywordKind(p.ps.query), open)
  {
    hide LeadingKeyword, KeywordKind, IsRowReturning, CommandTag, Apply, Noted, AfterError, Agrees, Collect;
    var t, p := HandleExecute(env, s, name), s.portals[name];
    var ready := Ready(s.link, p.ps.handle, p.params);
    var fails := ExecFails(env, s, p);
    if ready.Ok? {
      var y := Apply(env.driver, s.link.db, ready.value, p.params).1;
      Moves(env.driver, s.link.db, ready.value, p.params);
      OutcomeAgrees(s.status, s.link.db, p.ps.query, env.driver.kind(ready.value), fails, t.link.db, t.status, y.failure.None?);
    } else {
      OutcomeAgrees(s.status, s.link.db, p.ps.query, Ordinary, fails, t.link.db, t.status, true);
    }
  }

  /** A row-returning portal that has not run opens its cursor, which is then drained. */
  lemma OpenedPortal(env: Env, s: Session, p: Portal)
    requires !p.executed && p.execErr.None? && IsRowReturning(p.ps.query)
    ensures var r := ExecutePortal(env, s.link, p); var s1 := s.(link := r.0);
            && r.0.db == s.link.db && r.1.ps == p.ps && r.1.executed
            && (r.2.Some? ==> ExecFails(env, s, p))
            && (r.2.None? ==>
                  && r.1.execErr.None? && r.1.rows.Some?
                  && (ExecFails(env, s1, r.1) <==> ExecFails(env, s, p))
                  && ExecutedKind(env, s1, r.1) == ExecutedKind(env, s, p))
  {
    hide IsRowReturning, Apply, Collect;
  }

  lemma OpenAgrees(env: Env, s: Session, name: string)
    requires Agrees(s.status, s.link.db) && s.status != Failed && name in s.portals
    requires !s.portals[name].executed && s.portals[name].execErr.None? && IsRowReturning(s.portals[name].ps.query)
    ensures var t := HandleExecute(env, s, name); var p := s.portals[name]; var open := s.link.db.open;
            Agrees(t.status, t.link.db) <==>
            ExecFails(env, s, p) || Opens(ExecutedKind(env, s, p), open) == Opens(KeywordKind(p.ps.query), open)
  {
    hide LeadingKeyword, KeywordKind, IsRowReturning, StreamPortal, ExecutePortal, ExecFails, ExecutedKind;
    var p := s.portals[name];
    var r := ExecutePortal(env, s.link, p);
    OpenedPortal(env, s, p);
    if r.2.None? {
      var s1 := s.(link := r.0, portals := s.portals[name := r.1]);
      ExecutedAgrees(env, s1, name);
      SameFailure(env, s1, s.(link := r.0), r.1);
    }
  }

  lemma SameFailure(env: Env, s: Session, t: Session, p: Portal)
    requires s.link == t.link
    ensures ExecFails(env, s, p) == ExecFails(env, t, p) && ExecutedKind(env, s, p) == ExecutedKind(env, t, p)
  {
  }

  /** For any portal whatever, run before or not, with an open cursor or without: Execute keeps the status
      true exactly when it fails, or what it runs moves the engine's transaction just as the keyword
      of the statement moves the session's. */
  lemma ExecuteAgreesIff(env: Env, s: Session, name: string)
    requires Agrees(s.status, s.link.db) && s.status != Failed && name in s.portals
    requires !s.portals[name].executed ==> s.portals[name].rows.None? && s.portals[name].execErr.None?
    ensures var t := HandleExecute(env, s, name); var p := s.portals[name]; var open := s.link.db.open;
            Agrees(t.status, t.link.db) <==>
            ExecFails(env, s, p) || Opens(ExecutedKind(env, s, p), open) == Opens(KeywordKind(p.ps.query), open)
  {
    hide LeadingKeyword, KeywordKind, IsRowReturning, StreamPortal, ExecFails, ExecutedKind, Agrees;
    var p := s.portals[name];
    if !p.executed {
      if IsRowReturning(p.ps.query) {
        OpenAgrees(env, s, name);
      } else {
        RunAgrees(env, s, name);
      }
    } else {
      assert s.portals[name := p] == s.portals;
      AfterFailing(env, s, p);
      if p.execErr.None? {
        ExecutedAgrees(env, s, name);
      }
    }
  }

  lemma AfterFailing(env: Env, s: Session, p: Portal)
    requires Agrees(s.status, s.link.db)
    ensures Agrees(AfterError(s.status), s.link.db) && (p.executed && p.execErr.Some? ==> ExecFails(env, s, p))
  {
  }
}

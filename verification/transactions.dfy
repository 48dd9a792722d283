/** Transaction status: what the session reports against what the engine has open. */
module Transactions {
  import opened Text
  import opened Command
  import opened Sqlite
  import opened SessionSpec
  import opened Replies

  // -------------------------------------------------------- without any assumption

  /** The failed state is entered from a transaction and left to idle, nothing else. */
  predicate LegalMove(a: Status, b: Status) {
    (b == Failed && a != Failed ==> a == InTx) && (a == Failed && b != Failed ==> b == Idle)
  }

  /** In a failed transaction only ROLLBACK runs, and only to end the block. */
  predicate QuietWhileFailed(env: Env, s: Session, t: Session) {
    if t.status == Failed then t.link.db == s.link.db && t.link.log == s.link.log
    else t.link == ExecDirect(env.driver, s.link, "ROLLBACK").0
  }

  lemma NotedIsLegal(status: Status, kw: string)
    requires status != Failed
    ensures LegalMove(status, Noted(status, kw)) && LegalMove(status, AfterError(status))
  {
  }

  lemma SimpleMoves(env: Env, s: Session, q: string)
    requires s.status != Failed
    ensures LegalMove(s.status, ExecSimple(env, s, q).status)
    ensures LegalMove(s.status, StreamSimple(env, s, q).status)
  {
    hide LeadingKeyword, CommandTag, ExecDirect, Drain, Direct, ColumnTypes, Collect, Noted, AfterError, LegalMove;
    NotedIsLegal(s.status, LeadingKeyword(q));
    StayedPut(env, s);
  }

  lemma QueryMoves(env: Env, s: Session, text: string)
    ensures var t := HandleQuery(env, s, text);
            LegalMove(s.status, t.status) && (s.status == Failed ==> QuietWhileFailed(env, s, t))
  {
    hide LeadingKeyword, IsRowReturning, TrimSpace, ExecSimple, StreamSimple, ExecDirect;
    if s.status != Failed {
      SimpleMoves(env, s, env.rewrite(text));
    }
  }

  lemma ExecuteMoves(env: Env, s: Session, name: string)
    ensures var t := HandleExecute(env, s, name);
            LegalMove(s.status, t.status) && (s.status == Failed ==> QuietWhileFailed(env, s, t))
  {
    hide LeadingKeyword, CommandTag, ExecDirect, Drain, Collect, ExecutePortal, Noted, AfterError, LegalMove;
    StayedPut(env, s);
    if name in s.portals {
      if s.status != Failed {
        NotedIsLegal(s.status, LeadingKeyword(s.portals[name].ps.query));
        ExecutedNamesake(env, s.link, s.portals[name]);
      } else {
        LegalFromFailed();
      }
    } else if s.status != Failed {
      NotedIsLegal(s.status, "");
    }
    AfterErrorOfFailed();
  }

  lemma ExecutedNamesake(env: Env, l: Link, p: Portal)
    ensures ExecutePortal(env, l, p).1.ps == p.ps
  {
  }

  lemma LegalFromFailed()
    ensures LegalMove(Failed, Idle) && LegalMove(Failed, Failed)
  {
  }

  lemma AfterErrorOfFailed()
    ensures AfterError(Failed) == Failed
  {
  }

  /** A handler that leaves database and log alone and answers, perhaps with an error. */
  predicate Settles(s: Session, t: Session) {
    t.link.db == s.link.db && t.link.log == s.link.log && (t.status == s.status || t.status == AfterError(s.status))
  }

  lemma SettlesIsLegal(env: Env, s: Session, t: Session)
    requires Settles(s, t)
    ensures LegalMove(s.status, t.status) && (s.status == Failed ==> QuietWhileFailed(env, s, t))
  {
    hide ExecDirect;
  }

  lemma ParseSettles(env: Env, s: Session, name: string, text: string)
    ensures Settles(s, HandleParse(env, s, name, text))
  {
    hide CountParams, AfterError;
  }

  lemma BindSettles(s: Session, portal: string, statement: string, params: seq<Param>)
    ensures Settles(s, HandleBind(s, portal, statement, params))
  {
    hide AfterError;
  }

  lemma CloseSettles(s: Session, objectType: char, name: string)
    ensures Settles(s, HandleClose(s, objectType, name))
  {
    hide AfterError;
  }

  lemma DescribeStatementSettles(env: Env, s: Session, ps: Statement)
    ensures Settles(s, DescribeStatement(env, s, ps))
  {
    hide AfterError, ColumnTypes, Ready;
  }

  /** Describing a portal is quiet while the transaction is failed, and else may fail it. */
  lemma DescribePortalMoves(env: Env, s: Session, name: string)
    requires name in s.portals
    ensures var t := DescribePortal(env, s, name);
            (t.status == s.status || t.status == AfterError(s.status)) && (s.status == Failed ==> Settles(s, t))
  {
    hide AfterError, LeadingKeyword, ExecutePortal;
  }

  lemma DescribeMoves(env: Env, s: Session, objectType: char, name: string)
    ensures var t := HandleDescribe(env, s, objectType, name);
            LegalMove(s.status, t.status) && (s.status == Failed ==> QuietWhileFailed(env, s, t))
  {
    hide DescribeStatement, DescribePortal, LegalMove, QuietWhileFailed;
    var t := HandleDescribe(env, s, objectType, name);
    if objectType == 'P' && name in s.portals {
      DescribePortalMoves(env, s, name);
      if s.status == Failed {
        SettlesIsLegal(env, s, t);
      } else {
        NotedIsLegal(s.status, "");
        StayedPut(env, s);
      }
    } else {
      if objectType == 'S' && name in s.stmts {
        DescribeStatementSettles(env, s, s.stmts[name]);
      }
      SettlesIsLegal(env, s, t);
    }
  }

  lemma OtherMoves(env: Env, s: Session, m: Message)
    requires !m.Query? && !m.Execute?
    ensures var t := Step(env, s, m);
            LegalMove(s.status, t.status) && (s.status == Failed ==> QuietWhileFailed(env, s, t))
  {
    hide HandleParse, HandleBind, HandleDescribe, HandleClose, HandleQuery, HandleExecute, LegalMove, QuietWhileFailed;
    if s.over || (s.skip && !m.Sync?) {
      StayedPut(env, s);
    } else {
      match m
      case Parse(name, text) => ParseSettles(env, s, name, text); SettlesIsLegal(env, s, Step(env, s, m));
      case Bind(portal, statement, params) => BindSettles(s, portal, statement, params); SettlesIsLegal(env, s, Step(env, s, m));
      case Close(objectType, name) => CloseSettles(s, objectType, name); SettlesIsLegal(env, s, Step(env, s, m));
      case Describe(objectType, name) => DescribeMoves(env, s, objectType, name);
      case _ => SettlesIsLegal(env, s, Step(env, s, m));
    }
  }

  /** For every session, message and engine: E is entered only from T and left only to I, and
      while it lasts no statement runs and the database does not change. */
  lemma FailedIsQuiet(env: Env, s: Session, m: Message)
    ensures LegalMove(s.status, Step(env, s, m).status)
    ensures s.status == Failed ==> QuietWhileFailed(env, s, Step(env, s, m))
  {
    hide HandleQuery, HandleExecute, LegalMove, QuietWhileFailed;
    match m
    case Query(text) => QueryMoves(env, s, text); StayedPut(env, s);
    case Execute(portal) => ExecuteMoves(env, s, portal); StayedPut(env, s);
    case _ => OtherMoves(env, s, m);
  }

  lemma StayedPut(env: Env, s: Session)
    ensures LegalMove(s.status, s.status) && (s.status == Failed ==> QuietWhileFailed(env, s, s))
  {
  }

  // ------------------------------------------------------------------- assumptions

  /** How the session reads a statement. */
  function KeywordKind(q: string): Kind {
    var kw := LeadingKeyword(q);
    if IsTxBegin(kw) then Begin
    else if IsTxCommit(kw) then Commit
    else if IsTxRollback(kw) then Rollback
    else Ordinary
  }

  /** The engine reads the statement as the session does, and transaction control returns no rows. */
  predicate Tracked(env: Env, q: string) {
    env.driver.kind(q) == KeywordKind(q) && (KeywordKind(q) != Ordinary ==> !IsRowReturning(q))
  }

  /** The engine takes the text ROLLBACK for what it is. */
  ghost predicate KnowsRollback(env: Env) {
    env.driver.kind("ROLLBACK") == Rollback && forall c :: env.driver.prepare(c, "ROLLBACK") == Ok(0)
  }

  predicate Agrees(status: Status, db: Db) {
    (status == Idle ==> !db.open) && (status == InTx ==> db.open)
  }

  /** A named portal that holds transaction control. */
  predicate TxPortal(s: Session, name: string) {
    name in s.portals && KeywordKind(s.portals[name].ps.query) != Ordinary
  }

  /** The portal has run without an error. */
  predicate Spent(p: Portal) {
    p.executed && p.execErr.None?
  }

  predicate Active(s: Session) {
    !s.over && !s.skip
  }

  /** The portal of transaction control that this message ran by describing it. */
  function Described(env: Env, s: Session, m: Message): Option<string> {
    if m.Describe? && m.objectType == 'P' && Active(s) && s.status != Failed && TxPortal(s, m.name) &&
       !s.portals[m.name].executed && !Step(env, s, m).skip
    then Some(m.name) else None
  }

  /** What the theorems ask of a message: tracked statements; a described portal of transaction
      control is executed at once; one that has run is not executed again. */
  predicate Allowed(env: Env, s: Session, pending: Option<string>, m: Message) {
    && (m.Query? || m.Parse? ==> Tracked(env, env.rewrite(m.text)))
    && (pending.Some? ==> m == Execute(pending.value))
    && (pending.None? && m.Execute? && Active(s) && s.status != Failed && TxPortal(s, m.portal) ==>
          !Spent(s.portals[m.portal]))
  }

  function At(env: Env, s: Session, msgs: seq<Message>, i: nat): Session
    requires i <= |msgs|
  {
    Run(env, s, msgs[..i])
  }

  function PendingAt(env: Env, s: Session, msgs: seq<Message>, i: nat): Option<string>
    requires i <= |msgs|
  {
    if i == 0 then None else Described(env, At(env, s, msgs, i - 1), msgs[i - 1])
  }

  ghost predicate Disciplined(env: Env, s: Session, msgs: seq<Message>) {
    forall i :: 0 <= i < |msgs| ==> Allowed(env, At(env, s, msgs, i), PendingAt(env, s, msgs, i), msgs[i])
  }

  lemma AtStep(env: Env, s: Session, msgs: seq<Message>, i: nat)
    requires i < |msgs|
    ensures At(env, s, msgs, i + 1) == Step(env, At(env, s, msgs, i), msgs[i])
  {
    hide Step;
    assert msgs[..i + 1] == msgs[..i] + [msgs[i]];
    RunAppend(env, s, msgs[..i], [msgs[i]]);
    assert [msgs[i]][1..] == [];
  }

  // --------------------------------------------------------------------- invariant

  /** A statement's handle, while open, holds its query. */
  predicate HandleFits(l: Link, ps: Statement) {
    ps.handle < l.next && (ps.handle in l.stmts ==> l.stmts[ps.handle].query == ps.query)
  }

  predicate PortalFits(env: Env, l: Link, p: Portal) {
    && HandleFits(l, p.ps) && Tracked(env, p.ps.query)
    && (!p.executed ==> p.rows.None? && p.execErr.None?)
    && (p.rows.Some? ==> IsRowReturning(p.ps.query) && p.rows.value < l.next &&
                         (p.rows.value in l.cursors ==> l.cursors[p.rows.value].query == p.ps.query))
  }

  ghost predicate Fits(env: Env, l: Link, stmts: map<string, Statement>, portals: map<string, Portal>) {
    && (forall n :: n in stmts ==> HandleFits(l, stmts[n]) && Tracked(env, stmts[n].query))
    && (forall n :: n in portals ==> PortalFits(env, l, portals[n]))
  }

  /** The status the session will have once the pending portal is executed. */
  function Due(s: Session, pending: Option<string>): Status {
    if pending.Some? && pending.value in s.portals
    then Noted(s.status, LeadingKeyword(s.portals[pending.value].ps.query)) else s.status
  }

  predicate PendingFits(s: Session, pending: Option<string>) {
    pending.Some? ==>
      Active(s) && s.status != Failed && TxPortal(s, pending.value) && Spent(s.portals[pending.value]) &&
      s.portals[pending.value].rows.None?
  }

  ghost predicate Sound(env: Env, s: Session, pending: Option<string>) {
    Fits(env, s.link, s.stmts, s.portals) && Settled(s.link.db) && PendingFits(s, pending) && Agrees(Due(s, pending), s.link.db)
  }

  /** No handle changed its meaning. */
  ghost predicate SameMeaning(a: Link, b: Link) {
    && a.next <= b.next
    && (forall h :: h in b.stmts && h < a.next ==> h in a.stmts && b.stmts[h] == a.stmts[h])
    && (forall c :: c in b.cursors && c < a.next ==> c in a.cursors && b.cursors[c] == a.cursors[c])
  }

  lemma MeaningKeepsFits(env: Env, a: Link, b: Link, stmts: map<string, Statement>, portals: map<string, Portal>)
    requires SameMeaning(a, b) && Fits(env, a, stmts, portals)
    ensures Fits(env, b, stmts, portals)
  {
  }

  lemma ReplacingFits(env: Env, l: Link, stmts: map<string, Statement>, portals: map<string, Portal>, name: string, p: Portal)
    requires Fits(env, l, stmts, portals) && PortalFits(env, l, p)
    ensures Fits(env, l, stmts, portals[name := p])
  {
  }

  // ------------------------------------------------------------ running statements

  lemma NotedKind(q: string, status: Status)
    ensures Noted(status, LeadingKeyword(q)) ==
            match KeywordKind(q)
            case Begin => InTx
            case Commit => Idle
            case Rollback => Idle
            case Ordinary => status
    ensures EndsBlock(LeadingKeyword(q)) <==> KeywordKind(q) == Commit || KeywordKind(q) == Rollback
  {
  }

  /** How a step from a sound state may move status and content. */
  predicate GoodMove(db: Db, status: Status, db': Db, status': Status) {
    && Settled(db') && Agrees(status', db')
    && (status' != Idle ==> db'.committed == db.committed)
    && (status == Failed && status' == Idle ==> db' == RolledBack(db))
  }

  /** After a statement that failed, in any way the session fails it. */
  lemma FailedRun(env: Env, db: Db, q: string, ps: seq<Param>, status: Status)
    requires Settled(db) && status != Failed && Agrees(status, db) && env.driver.kind(q) == KeywordKind(q)
    requires Apply(env.driver, db, q, ps).1.failure.Some? || KeywordKind(q) == Ordinary
    ensures GoodMove(db, status, Apply(env.driver, db, q, ps).0, AfterError(status))
  {
  }

  lemma GoodRun(env: Env, db: Db, q: string, ps: seq<Param>, status: Status)
    requires Settled(db) && status != Failed && Agrees(status, db) && env.driver.kind(q) == KeywordKind(q)
    requires Apply(env.driver, db, q, ps).1.failure.None?
    ensures GoodMove(db, status, Apply(env.driver, db, q, ps).0, Noted(status, LeadingKeyword(q)))
  {
  }

  lemma GoodRollback(env: Env, l: Link)
    requires KnowsRollback(env) && Settled(l.db)
    ensures var after := ExecDirect(env.driver, l, "ROLLBACK").0;
            after.db == RolledBack(l.db) && SameMeaning(l, after)
  {
  }

  // -------------------------------------------------------------------- handlers

  lemma ExecSimpleSound(env: Env, s: Session, q: string)
    requires Settled(s.link.db) && Agrees(s.status, s.link.db) && s.status != Failed && Tracked(env, q)
    ensures var t := ExecSimple(env, s, q); GoodMove(s.link.db, s.status, t.link.db, t.status) && SameMeaning(s.link, t.link)
  {
    hide LeadingKeyword, KeywordKind, CommandTag, Apply;
    if Direct(env.driver, s.link, q).Ok? {
      if Apply(env.driver, s.link.db, q, []).1.failure.None? {
        GoodRun(env, s.link.db, q, [], s.status);
      } else {
        FailedRun(env, s.link.db, q, [], s.status);
      }
    }
  }

  /** How a streamed simple query ends: not run, failed, or run with all its rows sent. */
  lemma StreamEnds(env: Env, s: Session, q: string)
    ensures var t := StreamSimple(env, s, q); var (db, y) := Apply(env.driver, s.link.db, q, []);
            || (t.link.db == s.link.db && t.status == AfterError(s.status))
            || (t.link.db == db && t.status == AfterError(s.status))
            || (t.link.db == db && t.status == s.status && y.failure.None?)
  {
    hide CommandTag, Apply, Collect, ColumnTypes, Direct, Drain, AfterError;
    if Direct(env.driver, s.link, q).Ok? {
      StreamOpened(env, s, q);
      var y := Apply(env.driver, s.link.db, q, []).1;
      CollectedRows(y.rows, y.failure);
    }
  }

  lemma StreamMeans(env: Env, s: Session, q: string)
    ensures SameMeaning(s.link, StreamSimple(env, s, q).link)
  {
    hide StreamSimple;
    StreamLinks(env, s, q);
  }

  lemma StreamSimpleSound(env: Env, s: Session, q: string)
    requires Settled(s.link.db) && Agrees(s.status, s.link.db) && s.status != Failed && Tracked(env, q) && IsRowReturning(q)
    ensures var t := StreamSimple(env, s, q); GoodMove(s.link.db, s.status, t.link.db, t.status) && SameMeaning(s.link, t.link)
  {
    hide LeadingKeyword, KeywordKind, Apply, IsRowReturning, StreamSimple, SameMeaning;
    StreamEnds(env, s, q);
    StreamMeans(env, s, q);
    NotedKind(q, s.status);
    FailedRun(env, s.link.db, q, [], s.status);
    if Apply(env.driver, s.link.db, q, []).1.failure.None? {
      GoodRun(env, s.link.db, q, [], s.status);
    }
  }

  lemma QuerySound(env: Env, s: Session, text: string)
    requires KnowsRollback(env) && Sound(env, s, None) && Active(s) && Tracked(env, env.rewrite(text))
    ensures var t := HandleQuery(env, s, text);
            Sound(env, t, None) && GoodMove(s.link.db, s.status, t.link.db, t.status)
  {
    hide LeadingKeyword, IsRowReturning, TrimSpace, CommandTag, ExecSimple, StreamSimple, ExecDirect, Fits, SameMeaning, Tracked;
    var q := env.rewrite(text);
    var t := HandleQuery(env, s, text);
    SameSelf(s.link);
    if s.status == Failed {
      GoodRollback(env, s.link);
    } else if IsRowReturning(q) {
      StreamSimpleSound(env, s, q);
      StreamLinks(env, s, q);
    } else {
      ExecSimpleSound(env, s, q);
    }
    ExecKeepsNames(env, s, q);
    MeaningKeepsFits(env, s.link, t.link, s.stmts, s.portals);
  }

  lemma ExecKeepsNames(env: Env, s: Session, q: string)
    ensures var t := ExecSimple(env, s, q); t.stmts == s.stmts && t.portals == s.portals
  {
  }

  lemma SameSelf(l: Link)
    ensures SameMeaning(l, l)
  {
  }

  /** boundPortal.execute on a portal that has not run, or has run and keeps its cursor. */
  lemma ExecutePortalSound(env: Env, s: Session, p: Portal)
    requires Settled(s.link.db) && Agrees(s.status, s.link.db) && s.status != Failed && PortalFits(env, s.link, p)
    ensures var r := ExecutePortal(env, s.link, p);
            && SameMeaning(s.link, r.0) && PortalFits(env, r.0, r.1) && r.1.executed && r.1.ps == p.ps
            && (r.2.Some? ==> GoodMove(s.link.db, s.status, r.0.db, AfterError(s.status)))
            && (r.2.None? ==> Spent(r.1))
            && (r.2.None? && (p.executed || IsRowReturning(p.ps.query)) ==> r.0.db == s.link.db)
            && (r.2.None? && !p.executed && !IsRowReturning(p.ps.query) ==>
                  r.1.rows.None? && GoodMove(s.link.db, s.status, r.0.db, Noted(s.status, LeadingKeyword(p.ps.query))))
  {
    hide LeadingKeyword, IsRowReturning, KeywordKind, Apply, ColumnTypes;
    if !p.executed && !IsRowReturning(p.ps.query) && Ready(s.link, p.ps.handle, p.params).Ok? {
      if Apply(env.driver, s.link.db, p.ps.query, p.params).1.failure.None? {
        GoodRun(env, s.link.db, p.ps.query, p.params, s.status);
      } else {
        FailedRun(env, s.link.db, p.ps.query, p.params, s.status);
      }
    }
  }

  lemma PortalIsFit(env: Env, s: Session, name: string)
    requires Fits(env, s.link, s.stmts, s.portals) && name in s.portals
    ensures PortalFits(env, s.link, s.portals[name])
  {
  }

  /** Describing a portal runs it; the status only follows when it is executed. */
  lemma DescribePortalSound(env: Env, s: Session, name: string)
    requires Sound(env, s, None) && Active(s) && name in s.portals && s.status != Failed
    ensures var m := Describe('P', name); var t := DescribePortal(env, s, name);
            var pending := if TxPortal(s, name) && !s.portals[name].executed && !t.skip then Some(name) else None;
            Sound(env, t, pending) && GoodMove(s.link.db, s.status, t.link.db, Due(t, pending))
  {
    hide LeadingKeyword, IsRowReturning, KeywordKind, ExecutePortal, Fits, SameMeaning;
    var p := s.portals[name];
    var r := ExecutePortal(env, s.link, p);
    PortalIsFit(env, s, name);
    ExecutePortalSound(env, s, p);
    MeaningKeepsFits(env, s.link, r.0, s.stmts, s.portals);
    ReplacingFits(env, r.0, s.stmts, s.portals, name, r.1);
    NotedKind(p.ps.query, s.status);
  }

  lemma DescribeStatementSound(env: Env, s: Session, ps: Statement)
    requires Sound(env, s, None) && Active(s)
    ensures var t := DescribeStatement(env, s, ps);
            Sound(env, t, None) && GoodMove(s.link.db, s.status, t.link.db, t.status)
  {
    hide Fits, Ready, ColumnTypes;
    var t := DescribeStatement(env, s, ps);
    assert SameMeaning(s.link, t.link);
    MeaningKeepsFits(env, s.link, t.link, s.stmts, s.portals);
  }

  lemma DescribeSound(env: Env, s: Session, objectType: char, name: string)
    requires Sound(env, s, None) && Active(s)
    ensures var m := Describe(objectType, name); var t := HandleDescribe(env, s, objectType, name);
            var pending := Described(env, s, m);
            Sound(env, t, pending) && GoodMove(s.link.db, s.status, t.link.db, Due(t, pending))
  {
    hide LeadingKeyword, KeywordKind, TxPortal, DescribeStatement, ExecutePortal, Fits;
    if objectType == 'P' && name in s.portals && s.status != Failed {
      DescribePortalSound(env, s, name);
    } else if objectType == 'S' && name in s.stmts {
      DescribeStatementSound(env, s, s.stmts[name]);
    }
  }

  lemma StreamPortalMeans(env: Env, s: Session, name: string)
    requires name in s.portals
    ensures var t := StreamPortal(env, s, name); var p := s.portals[name];
            && SameMeaning(s.link, t.link) && t.stmts == s.stmts
            && t.portals == s.portals[name := p.(rows := None)] && t.over == s.over
            && (p.rows.None? ==> t.link.db == s.link.db && t.status == Noted(s.status, LeadingKeyword(p.ps.query)) && t.skip == s.skip)
  {
    hide LeadingKeyword, CommandTag, Collect, Drain, SameMeaning, AfterError, Noted;
    var p := s.portals[name];
    if p.rows.None? {
      assert s.portals[name := p.(rows := None)] == s.portals;
      SameSelf(s.link);
    } else {
      DrainMeans(env.driver, s.link, p.rows.value);
    }
  }

  lemma DrainMeans(d: Driver, l: Link, c: nat)
    ensures SameMeaning(l, CloseCursor(Drain(d, l, c).0, c))
  {
    hide Apply;
  }

  /** Streaming an open cursor: its statement is no transaction control. */
  lemma StreamPortalGood(env: Env, s: Session, name: string)
    requires Settled(s.link.db) && Agrees(s.status, s.link.db) && s.status != Failed
    requires name in s.portals && PortalFits(env, s.link, s.portals[name]) && s.portals[name].rows.Some?
    ensures var t := StreamPortal(env, s, name); GoodMove(s.link.db, s.status, t.link.db, t.status)
  {
    hide LeadingKeyword, CommandTag, Collect, Apply, IsRowReturning, KeywordKind;
    var p := s.portals[name];
    var c := p.rows.value;
    NotedKind(p.ps.query, s.status);
    if c in s.link.cursors {
      var ps := s.link.cursors[c].params;
      var y := Apply(env.driver, s.link.db, p.ps.query, ps).1;
      CollectedRows(y.rows, y.failure);
      FailedRun(env, s.link.db, p.ps.query, ps, s.status);
      if y.failure.None? {
        GoodRun(env, s.link.db, p.ps.query, ps, s.status);
      }
    }
  }

  lemma ExecuteActive(env: Env, s: Session, name: string)
    requires Sound(env, s, None) && Active(s) && s.status != Failed && name in s.portals
    requires TxPortal(s, name) ==> !Spent(s.portals[name])
    ensures var t := HandleExecute(env, s, name);
            GoodMove(s.link.db, s.status, t.link.db, t.status) && Fits(env, t.link, t.stmts, t.portals)
  {
    hide LeadingKeyword, IsRowReturning, KeywordKind, ExecutePortal, Fits, StreamPortal, SameMeaning, Tracked;
    var p := s.portals[name];
    var r := ExecutePortal(env, s.link, p);
    var s1 := s.(link := r.0, portals := s.portals[name := r.1]);
    PortalIsFit(env, s, name);
    ExecutePortalSound(env, s, p);
    MeaningKeepsFits(env, s.link, r.0, s.stmts, s.portals);
    ReplacingFits(env, r.0, s.stmts, s.portals, name, r.1);
    if r.2.None? {
      NotedKind(p.ps.query, s.status);
      AlreadyExecuted(env, s.link, p);
      StreamPortalMeans(env, s1, name);
      var t := StreamPortal(env, s1, name);
      MeaningKeepsFits(env, s1.link, t.link, s1.stmts, s1.portals);
      PortalIsFit(env, t.(portals := s1.portals), name);
      ReplacingFits(env, t.link, s1.stmts, s1.portals, name, r.1.(rows := None));
      if r.1.rows.Some? {
        StreamPortalGood(env, s1, name);
      }
    }
  }

  lemma AlreadyExecuted(env: Env, l: Link, p: Portal)
    ensures var r := ExecutePortal(env, l, p); p.executed ==> r == (l, p, p.execErr)
    ensures var r := ExecutePortal(env, l, p); r.2.None? && !p.executed && p.rows.None? ==> (r.1.rows.Some? <==> IsRowReturning(p.ps.query))
  {
  }

  /** Executing the portal that was described just before. */
  lemma ExecutePending(env: Env, s: Session, name: string)
    requires Sound(env, s, Some(name))
    ensures var t := HandleExecute(env, s, name);
            t.link.db == s.link.db && t.status == Due(s, Some(name)) && Fits(env, t.link, t.stmts, t.portals)
  {
  }

  lemma ExecuteSound(env: Env, s: Session, pending: Option<string>, name: string)
    requires KnowsRollback(env) && Sound(env, s, pending) && Active(s) && Allowed(env, s, pending, Execute(name))
    ensures var t := HandleExecute(env, s, name);
            Sound(env, t, None) && GoodMove(s.link.db, Due(s, pending), t.link.db, t.status)
  {
    hide LeadingKeyword, IsRowReturning, KeywordKind, ExecutePortal, Fits, StreamPortal, SameMeaning, Tracked, ExecDirect;
    if pending.Some? {
      ExecutePending(env, s, name);
    } else if name in s.portals && s.status != Failed {
      ExecuteActive(env, s, name);
    } else {
      GoodRollback(env, s.link);
      SameSelf(s.link);
      MeaningKeepsFits(env, s.link, HandleExecute(env, s, name).link, s.stmts, s.portals);
    }
  }

  lemma ParseSound(env: Env, s: Session, name: string, text: string)
    requires Sound(env, s, None) && Tracked(env, env.rewrite(text))
    ensures var t := HandleParse(env, s, name, text);
            Sound(env, t, None) && GoodMove(s.link.db, s.status, t.link.db, t.status)
  {
    hide Tracked, CountParams, Fits, SameMeaning, Prepare, CloseStmt;
    var t, q := HandleParse(env, s, name, text), env.rewrite(text);
    var r := Prepare(env.driver, s.link, q);
    PreparedMeans(env.driver, s.link, q);
    if r.1.Ok? {
      if name in s.stmts {
        StmtClosingKeepsMeaning(r.0, s.stmts[name].handle);
        SameMeaningTwice(s.link, r.0, t.link);
        StmtClosingKeepsHandle(r.0, s.stmts[name].handle, t.stmts[name]);
      }
      MeaningKeepsFits(env, s.link, t.link, s.stmts, s.portals);
      NamingFits(env, t.link, s.stmts, s.portals, name, t.stmts[name]);
    } else {
      SameSelf(s.link);
    }
  }

  lemma PreparedMeans(d: Driver, l: Link, q: string)
    ensures var r := Prepare(d, l, q);
            && SameMeaning(l, r.0) && r.0.db == l.db && (r.1.Err? ==> r.0 == l)
            && (r.1.Ok? ==> forall n: nat :: HandleFits(r.0, Statement(q, r.1.value, n)))
  {
  }

  lemma SameMeaningTwice(a: Link, b: Link, c: Link)
    requires SameMeaning(a, b) && SameMeaning(b, c)
    ensures SameMeaning(a, c)
  {
  }

  lemma StmtClosingKeepsHandle(l: Link, h: nat, ps: Statement)
    requires HandleFits(l, ps)
    ensures HandleFits(CloseStmt(l, h), ps)
  {
  }

  lemma NamingFits(env: Env, l: Link, stmts: map<string, Statement>, portals: map<string, Portal>, name: string, ps: Statement)
    requires Fits(env, l, stmts, portals) && HandleFits(l, ps) && Tracked(env, ps.query)
    ensures Fits(env, l, stmts[name := ps], portals)
  {
    hide Tracked, PortalFits, HandleFits;
  }

  lemma BindSound(env: Env, s: Session, portal: string, statement: string, params: seq<Param>)
    requires Sound(env, s, None)
    ensures var t := HandleBind(s, portal, statement, params);
            Sound(env, t, None) && GoodMove(s.link.db, s.status, t.link.db, t.status)
  {
    hide Tracked, IsRowReturning;
    if statement in s.stmts {
      var t := HandleBind(s, portal, statement, params);
      assert SameMeaning(s.link, t.link);
      MeaningKeepsFits(env, s.link, t.link, s.stmts, s.portals);
      ReplacingFits(env, t.link, s.stmts, s.portals, portal, t.portals[portal]);
    }
  }

  lemma ForgettingFits(env: Env, l: Link, stmts: map<string, Statement>, portals: map<string, Portal>, name: string)
    requires Fits(env, l, stmts, portals)
    ensures Fits(env, l, stmts - {name}, portals) && Fits(env, l, stmts, portals - {name})
  {
    hide Tracked, PortalFits, HandleFits;
  }

  lemma StmtClosingKeepsMeaning(l: Link, h: nat)
    ensures SameMeaning(l, CloseStmt(l, h)) && CloseStmt(l, h).db == l.db
  {
  }

  lemma PortalClosingKeepsMeaning(l: Link, p: Portal)
    ensures SameMeaning(l, ClosePortal(l, p)) && ClosePortal(l, p).db == l.db
  {
  }

  lemma CloseSound(env: Env, s: Session, objectType: char, name: string)
    requires Sound(env, s, None)
    ensures var t := HandleClose(s, objectType, name);
            Sound(env, t, None) && GoodMove(s.link.db, s.status, t.link.db, t.status)
  {
    hide Fits, SameMeaning, CloseStmt, ClosePortal;
    if objectType == 'S' && name in s.stmts {
      var h := s.stmts[name].handle;
      StmtClosingKeepsMeaning(s.link, h);
      MeaningKeepsFits(env, s.link, CloseStmt(s.link, h), s.stmts, s.portals);
      ForgettingFits(env, CloseStmt(s.link, h), s.stmts, s.portals, name);
    } else if objectType == 'P' && name in s.portals {
      var p := s.portals[name];
      PortalClosingKeepsMeaning(s.link, p);
      MeaningKeepsFits(env, s.link, ClosePortal(s.link, p), s.stmts, s.portals);
      ForgettingFits(env, ClosePortal(s.link, p), s.stmts, s.portals, name);
    }
  }

  /** Every allowed message keeps the session sound and moves status and content well. */
  lemma StepSound(env: Env, s: Session, pending: Option<string>, m: Message)
    requires KnowsRollback(env) && Sound(env, s, pending) && Allowed(env, s, pending, m)
    ensures var t := Step(env, s, m); var next := Described(env, s, m);
            Sound(env, t, next) && GoodMove(s.link.db, Due(s, pending), t.link.db, Due(t, next))
  {
    hide HandleQuery, HandleParse, HandleBind, HandleDescribe, HandleExecute, HandleClose, Fits, Tracked, KnowsRollback, LeadingKeyword, KeywordKind;
    if Active(s) || m.Sync? {
      match m
      case Query(text) => QuerySound(env, s, text);
      case Parse(name, text) => ParseSound(env, s, name, text);
      case Bind(portal, statement, params) => BindSound(env, s, portal, statement, params);
      case Describe(objectType, name) => DescribeSound(env, s, objectType, name);
      case Execute(portal) => ExecuteSound(env, s, pending, portal);
      case Close(objectType, name) => CloseSound(env, s, objectType, name);
      case _ =>
    }
  }

  // ------------------------------------------------------------------- whole runs

  lemma {:induction false} AllSound(env: Env, content: Content, msgs: seq<Message>, i: nat)
    requires KnowsRollback(env) && Disciplined(env, Fresh(content), msgs) && i <= |msgs|
    ensures Sound(env, At(env, Fresh(content), msgs, i), PendingAt(env, Fresh(content), msgs, i))
  {
    hide Step, KnowsRollback, Described, Allowed, Sound, Run, GoodMove;
    var s0 := Fresh(content);
    if i > 0 {
      AllSound(env, content, msgs, i - 1);
      AtStep(env, s0, msgs, i - 1);
      StepSound(env, At(env, s0, msgs, i - 1), PendingAt(env, s0, msgs, i - 1), msgs[i - 1]);
    } else {
      BeforeAny(env, s0, msgs);
      FreshSound(env, content);
    }
  }

  lemma FreshSound(env: Env, content: Content)
    ensures Sound(env, Fresh(content), None)
  {
  }

  lemma MoveAt(env: Env, content: Content, msgs: seq<Message>, i: nat)
    requires KnowsRollback(env) && Disciplined(env, Fresh(content), msgs) && i < |msgs|
    ensures var s0 := Fresh(content);
            var s, t := At(env, s0, msgs, i), At(env, s0, msgs, i + 1);
            GoodMove(s.link.db, Due(s, PendingAt(env, s0, msgs, i)), t.link.db, Due(t, PendingAt(env, s0, msgs, i + 1)))
  {
    hide Step, KnowsRollback, Described, Allowed;
    var s0 := Fresh(content);
    AllSound(env, content, msgs, i);
    AtStep(env, s0, msgs, i);
    StepSound(env, At(env, s0, msgs, i), PendingAt(env, s0, msgs, i), msgs[i]);
  }

  /** The block that began at the idle state i is not over at k. */
  ghost predicate Inside(env: Env, s: Session, msgs: seq<Message>, i: nat, k: nat) {
    i < k <= |msgs| && At(env, s, msgs, i).status == Idle && forall j :: i < j <= k ==> At(env, s, msgs, j).status != Idle
  }

  /** Unless a COMMIT or ROLLBACK is pending, the committed content inside a block is that of its
      beginning. */
  lemma {:induction false} BlockKeepsCommitted(env: Env, content: Content, msgs: seq<Message>, i: nat, k: nat)
    requires KnowsRollback(env) && Disciplined(env, Fresh(content), msgs) && Inside(env, Fresh(content), msgs, i, k)
    requires var s0 := Fresh(content); Due(At(env, s0, msgs, k), PendingAt(env, s0, msgs, k)) != Idle
    ensures At(env, Fresh(content), msgs, k).link.db.committed == At(env, Fresh(content), msgs, i).link.db.committed
    decreases k
  {
    hide At, KnowsRollback, Disciplined, LeadingKeyword, KeywordKind, Agrees, Due;
    var s0 := Fresh(content);
    MoveAt(env, content, msgs, k - 1);
    if k - 1 > i {
      if Due(At(env, s0, msgs, k - 1), PendingAt(env, s0, msgs, k - 1)) == Idle {
        PendingEnds(env, content, msgs, k - 1);
      } else {
        BlockKeepsCommitted(env, content, msgs, i, k - 1);
      }
    }
  }

  /** A pending COMMIT or ROLLBACK is executed next, and the session is idle. */
  lemma PendingEnds(env: Env, content: Content, msgs: seq<Message>, k: nat)
    requires KnowsRollback(env) && Disciplined(env, Fresh(content), msgs) && k < |msgs|
    requires var s0 := Fresh(content);
             At(env, s0, msgs, k).status != Idle && Due(At(env, s0, msgs, k), PendingAt(env, s0, msgs, k)) == Idle
    ensures At(env, Fresh(content), msgs, k + 1).status == Idle
  {
    hide Run, KnowsRollback, LeadingKeyword, KeywordKind, HandleExecute, Fits;
    var s0 := Fresh(content);
    var s, pending := At(env, s0, msgs, k), PendingAt(env, s0, msgs, k);
    AllSound(env, content, msgs, k);
    AtStep(env, s0, msgs, k);
    assert Allowed(env, s, pending, msgs[k]);
    ExecutePending(env, s, pending.value);
  }

  /** Where a block that is not over began. */
  lemma {:induction false} BlockBegan(env: Env, content: Content, msgs: seq<Message>, k: nat) returns (i: nat)
    requires k <= |msgs| && At(env, Fresh(content), msgs, k).status != Idle
    ensures Inside(env, Fresh(content), msgs, i, k)
  {
    hide At;
    assert At(env, Fresh(content), msgs, 0) == Fresh(content) by {
      BeforeAny(env, Fresh(content), msgs);
    }
    if At(env, Fresh(content), msgs, k - 1).status == Idle {
      i := k - 1;
    } else {
      i := BlockBegan(env, content, msgs, k - 1);
    }
  }

  lemma BeforeAny(env: Env, s: Session, msgs: seq<Message>)
    ensures At(env, s, msgs, 0) == s
  {
    assert msgs[..0] == [];
  }

  /** At every ReadyForQuery of every disciplined run the status sent is the engine's. I means that
      no transaction is open and everything is committed; T that one is open, and E that one is
      open or already rolled back to where its block began. In T and E alike nothing has been
      committed since the block began. */
  lemma StatusIsTrue(env: Env, content: Content, msgs: seq<Message>, i: nat) returns (begun: nat)
    requires KnowsRollback(env) && Disciplined(env, Fresh(content), msgs) && i < |msgs|
    requires Recovers(At(env, Fresh(content), msgs, i), msgs[i])
    ensures var s0 := Fresh(content);
            var t := At(env, s0, msgs, i + 1);
            && t.out != [] && t.out[|t.out| - 1] == ReadyForQuery(t.status)
            && (t.status == Idle ==> !t.link.db.open && t.link.db.working == t.link.db.committed)
            && (t.status != Idle ==>
                  && Inside(env, s0, msgs, begun, i + 1)
                  && var before := At(env, s0, msgs, begun).link.db.committed;
                     && t.link.db.committed == before
                     && (t.status == InTx ==> t.link.db.open)
                     && (t.status == Failed ==> t.link.db.open || t.link.db.working == before))
  {
    hide Step, KnowsRollback, Allowed, Inside, Fits, Run;
    var s0 := Fresh(content);
    AllSound(env, content, msgs, i + 1);
    AtStep(env, s0, msgs, i);
    var rs := StepAnswers(env, At(env, s0, msgs, i), msgs[i]);
    begun := 0;
    if At(env, s0, msgs, i + 1).status != Idle {
      begun := BlockBegan(env, content, msgs, i + 1);
      BlockKeepsCommitted(env, content, msgs, begun, i + 1);
    }
  }

  /** A failed transaction leaves no trace: when a block that began at position i ends from the
      failed state at j, no transaction is open and the content is what it was at position i. */
  lemma FailedLeavesNoTrace(env: Env, content: Content, msgs: seq<Message>, i: nat, j: nat)
    requires KnowsRollback(env) && Disciplined(env, Fresh(content), msgs)
    requires Inside(env, Fresh(content), msgs, i, j) && j < |msgs|
    requires At(env, Fresh(content), msgs, j).status == Failed && At(env, Fresh(content), msgs, j + 1).status == Idle
    ensures var begun := At(env, Fresh(content), msgs, i).link.db.committed;
            At(env, Fresh(content), msgs, j + 1).link.db == Db(begun, begun, false)
  {
    hide At, KnowsRollback, Disciplined, LeadingKeyword, KeywordKind;
    AllSound(env, content, msgs, j);
    BlockKeepsCommitted(env, content, msgs, i, j);
    AllSound(env, content, msgs, j + 1);
    MoveAt(env, content, msgs, j);
    NothingPendingAfterFailed(env, content, msgs, j + 1);
  }

  lemma NothingPendingAfterFailed(env: Env, content: Content, msgs: seq<Message>, j: nat)
    requires 0 < j <= |msgs| && At(env, Fresh(content), msgs, j - 1).status == Failed
    ensures PendingAt(env, Fresh(content), msgs, j) == None
  {
  }
}

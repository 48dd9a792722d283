/** Named statements and portals over whole runs: what Parse, Bind and Close do to the name they are
    sent for, and that nothing else touches it. */
module Names {
  import opened Text
  import opened Command
  import opened Sqlite
  import opened SessionSpec
  import opened Replies
  import opened Resources
  import opened Transactions

  /** The handles other than one are open as they were. */
  predicate OthersStay(a: Link, b: Link, h: nat) {
    forall k :: k in a.stmts && k != h ==> k in b.stmts && b.stmts[k] == a.stmts[k]
  }

  // ------------------------------------------------------------- Parse and Bind

  lemma ParsedNames(env: Env, s: Session, name: string, text: string, n: nat)
    requires env.driver.prepare(s.link.db.working, env.rewrite(text)) == Ok(n)
    ensures var t := HandleParse(env, s, name, text); var q := env.rewrite(text);
            && t.stmts == s.stmts[name := Statement(q, s.link.next, CountParams(q))] && t.portals == s.portals
            && t.status == s.status && t.skip == s.skip && t.out == s.out + [ParseComplete]
  {
    hide CountParams;
  }

  lemma ParsedHandles(env: Env, s: Session, name: string, text: string, n: nat)
    requires Conserved(s) && env.driver.prepare(s.link.db.working, env.rewrite(text)) == Ok(n)
    ensures var t := HandleParse(env, s, name, text); var q := env.rewrite(text);
            && s.link.next in t.link.stmts && t.link.stmts[s.link.next] == Prepared(q, n)
            && (name in s.stmts ==> s.stmts[name].handle !in t.link.stmts)
            && OthersStay(s.link, t.link, if name in s.stmts then s.stmts[name].handle else s.link.next)
            && t.link.cursors == s.link.cursors && t.link.db == s.link.db && t.link.log == s.link.log
  {
    hide CountParams, CursorsOwned;
    NextIsNew(s);
  }

  /** An accepted Parse gives the name the rewritten text and its number of parameters, with a handle of
      that text; the handle the name had is closed, every other handle, name and cursor stays. */
  lemma Parsed(env: Env, s: Session, name: string, text: string, n: nat)
    requires Conserved(s) && env.driver.prepare(s.link.db.working, env.rewrite(text)) == Ok(n)
    ensures var t := HandleParse(env, s, name, text); var q := env.rewrite(text);
            && name in t.stmts && t.stmts[name].query == q && t.stmts[name].nparams == CountParams(q)
            && t.stmts[name].handle in t.link.stmts && t.link.stmts[t.stmts[name].handle] == Prepared(q, n)
            && (name in s.stmts ==> s.stmts[name].handle !in t.link.stmts)
            && (forall other :: other in s.stmts && other != name ==> other in t.stmts && t.stmts[other] == s.stmts[other])
            && (forall other :: other in t.stmts ==> other == name || other in s.stmts)
            && OthersStay(s.link, t.link, if name in s.stmts then s.stmts[name].handle else s.link.next)
            && t.portals == s.portals && t.link.cursors == s.link.cursors && t.link.db == s.link.db && t.link.log == s.link.log
            && t.status == s.status && t.skip == s.skip && t.out == s.out + [ParseComplete]
  {
    hide HandleParse, CountParams, Conserved;
    ParsedNames(env, s, name, text, n);
    ParsedHandles(env, s, name, text, n);
  }

  /** A refused Parse leaves every name. */
  lemma ParseRefused(env: Env, s: Session, name: string, text: string)
    requires env.driver.prepare(s.link.db.working, env.rewrite(text)).Err?
    ensures var t := HandleParse(env, s, name, text);
            && t.stmts == s.stmts && t.portals == s.portals && t.link == s.link && t.skip && t.status == AfterError(s.status)
            && t.out == s.out + [ErrorResponse(env.driver.prepare(s.link.db.working, env.rewrite(text)).failure)]
  {
    hide CountParams;
  }

  /** An accepted Bind gives the portal just the values sent and the statement as it is named now, not run
      yet; the cursor of the portal it replaces is closed and every other cursor, handle and name stays. */
  lemma BindsValues(s: Session, portal: string, statement: string, ps: seq<Param>)
    requires statement in s.stmts
    ensures var t := HandleBind(s, portal, statement, ps);
            && portal in t.portals && t.portals[portal].params == ps && t.portals[portal].ps == s.stmts[statement]
            && !t.portals[portal].executed && t.portals[portal].rows.None?
            && (portal in s.portals && s.portals[portal].rows.Some? ==> s.portals[portal].rows.value !in t.link.cursors)
            && (forall c :: c in s.link.cursors && !(portal in s.portals && s.portals[portal].rows == Some(c)) ==>
                  c in t.link.cursors && t.link.cursors[c] == s.link.cursors[c])
            && (forall other :: other in s.portals && other != portal ==> other in t.portals && t.portals[other] == s.portals[other])
            && t.stmts == s.stmts && t.link.stmts == s.link.stmts && t.link.db == s.link.db && t.link.log == s.link.log
            && t.status == s.status && t.skip == s.skip && t.out == s.out + [BindComplete]
  {
  }

  // ---------------------------------------------------------------------- Close

  /** Close of a statement forgets the name and closes its handle; every other name, handle, portal and
      cursor stays. */
  lemma StatementClosed(s: Session, name: string)
    ensures var t := HandleClose(s, 'S', name);
            && name !in t.stmts
            && (forall other :: other in s.stmts && other != name ==> other in t.stmts && t.stmts[other] == s.stmts[other])
            && (forall other :: other in t.stmts ==> other in s.stmts)
            && (name in s.stmts ==> s.stmts[name].handle !in t.link.stmts && OthersStay(s.link, t.link, s.stmts[name].handle))
            && (name !in s.stmts ==> t.link == s.link)
            && t.portals == s.portals && t.link.cursors == s.link.cursors && t.link.db == s.link.db && t.link.log == s.link.log
            && t.status == s.status && t.skip == s.skip && t.out == s.out + [CloseComplete]
  {
  }

  /** Close of a portal forgets the name and closes its cursor; every other name, portal, handle and
      cursor stays. */
  lemma PortalClosed(s: Session, name: string)
    ensures var t := HandleClose(s, 'P', name);
            && name !in t.portals
            && (forall other :: other in s.portals && other != name ==> other in t.portals && t.portals[other] == s.portals[other])
            && (forall other :: other in t.portals ==> other in s.portals)
            && (name in s.portals && s.portals[name].rows.Some? ==> s.portals[name].rows.value !in t.link.cursors)
            && (forall c :: c in s.link.cursors && !(name in s.portals && s.portals[name].rows == Some(c)) ==>
                  c in t.link.cursors && t.link.cursors[c] == s.link.cursors[c])
            && t.stmts == s.stmts && t.link.stmts == s.link.stmts && t.link.db == s.link.db && t.link.log == s.link.log
            && t.status == s.status && t.skip == s.skip && t.out == s.out + [CloseComplete]
  {
  }

  /** Close of any other type only answers. */
  lemma OtherClosed(s: Session, objectType: char, name: string)
    requires objectType != 'S' && objectType != 'P'
    ensures HandleClose(s, objectType, name) == s.(out := s.out + [CloseComplete])
  {
  }

  // -------------------------------------------------------------- unknown names

  /** A message for a name that does not exist is answered with an error that names it, and changes nothing
      but the status and the skipping. */
  lemma UnknownNames(env: Env, s: Session, name: string)
    ensures forall portal, ps :: name !in s.stmts ==>
              HandleBind(s, portal, name, ps) == FailedWith(s, NoSuchStatement(name))
    ensures name !in s.stmts ==> HandleDescribe(env, s, 'S', name) == FailedWith(s, NoSuchStatement(name))
    ensures name !in s.portals ==> HandleDescribe(env, s, 'P', name) == FailedWith(s, NoSuchPortal(name))
    ensures name !in s.portals ==> HandleExecute(env, s, name) == FailedWith(s, NoSuchPortal(name))
    ensures forall objectType :: objectType != 'S' && objectType != 'P' ==>
              HandleDescribe(env, s, objectType, name) == FailedWith(s, BadDescribe(objectType))
  {
  }

  function FailedWith(s: Session, f: Sqlite.Failure): Session {
    s.(status := if s.status == InTx then Failed else s.status, skip := true, out := s.out + [ErrorResponse(f)])
  }

  // ------------------------------------------------------------------ whole runs

  /** The message says nothing about the statement of this name. */
  predicate SparesStatement(m: Message, name: string) {
    !(m.Parse? && m.name == name) && m != Close('S', name)
  }

  /** The message says nothing about the portal of this name. */
  predicate SparesPortal(m: Message, name: string) {
    !(m.Bind? && m.portal == name) && m != Close('P', name) && m != Describe('P', name) && m != Execute(name)
  }

  lemma QueryNames(env: Env, s: Session, text: string)
    ensures var t := HandleQuery(env, s, text); t.stmts == s.stmts && t.portals == s.portals
  {
    hide LeadingKeyword, IsRowReturning, TrimSpace, CommandTag, StreamSimple, ExecDirect;
    StreamLinks(env, s, env.rewrite(text));
  }

  lemma DescribeStatementNames(env: Env, s: Session, ps: Statement)
    ensures var t := DescribeStatement(env, s, ps); t.stmts == s.stmts && t.portals == s.portals
  {
    hide QueryStmt, ColumnTypes, CloseCursor, AfterError;
  }

  lemma DescribePortalNames(env: Env, s: Session, name: string)
    requires name in s.portals
    ensures var t := DescribePortal(env, s, name);
            t.stmts == s.stmts && (t.portals == s.portals || t.portals == s.portals[name := ExecutePortal(env, s.link, s.portals[name]).1])
  {
    hide LeadingKeyword, EndsBlock, AfterError, ExecutePortal;
  }

  lemma DescribeNames(env: Env, s: Session, objectType: char, name: string)
    ensures var t := HandleDescribe(env, s, objectType, name);
            t.stmts == s.stmts && forall p :: p in s.portals && !(objectType == 'P' && p == name) ==> p in t.portals && t.portals[p] == s.portals[p]
    ensures forall p :: p in HandleDescribe(env, s, objectType, name).portals ==> p in s.portals
  {
    hide DescribeStatement, DescribePortal, AfterError;
    if name in s.stmts {
      DescribeStatementNames(env, s, s.stmts[name]);
    }
    if name in s.portals {
      DescribePortalNames(env, s, name);
    }
  }

  lemma ExecuteNames(env: Env, s: Session, name: string)
    ensures var t := HandleExecute(env, s, name);
            t.stmts == s.stmts && forall p :: p in s.portals && p != name ==> p in t.portals && t.portals[p] == s.portals[p]
    ensures forall p :: p in HandleExecute(env, s, name).portals ==> p in s.portals
  {
    hide LeadingKeyword, EndsBlock, AfterError, ExecutePortal, ExecDirect, StreamPortal, SameMeaning;
    if name in s.portals {
      var r := ExecutePortal(env, s.link, s.portals[name]);
      StreamPortalMeans(env, s.(link := r.0, portals := s.portals[name := r.1]), name);
    }
  }

  /** Whatever the message, a statement it spares stays as it is, and one it does not name does not appear. */
  lemma StepSparesStatement(env: Env, s: Session, m: Message, name: string)
    requires SparesStatement(m, name)
    ensures var t := Step(env, s, m);
            (name in t.stmts <==> name in s.stmts) && (name in s.stmts ==> t.stmts[name] == s.stmts[name])
  {
    hide HandleQuery, HandleDescribe, HandleExecute, CountParams;
    match m
    case Query(text) => QueryNames(env, s, text);
    case Describe(objectType, n) => DescribeNames(env, s, objectType, n);
    case Execute(portal) => ExecuteNames(env, s, portal);
    case _ =>
  }

  lemma StepSparesPortal(env: Env, s: Session, m: Message, name: string)
    requires SparesPortal(m, name)
    ensures var t := Step(env, s, m);
            (name in t.portals <==> name in s.portals) && (name in s.portals ==> t.portals[name] == s.portals[name])
  {
    hide HandleQuery, HandleDescribe, HandleExecute, CountParams;
    match m
    case Query(text) => QueryNames(env, s, text);
    case Describe(objectType, n) => DescribeNames(env, s, objectType, n);
    case Execute(portal) => ExecuteNames(env, s, portal);
    case _ =>
  }

  predicate AllSpareStatement(msgs: seq<Message>, name: string) {
    forall i :: 0 <= i < |msgs| ==> SparesStatement(msgs[i], name)
  }

  predicate AllSparePortal(msgs: seq<Message>, name: string) {
    forall i :: 0 <= i < |msgs| ==> SparesPortal(msgs[i], name)
  }

  lemma {:induction false} RunSparesStatement(env: Env, s: Session, msgs: seq<Message>, name: string)
    requires AllSpareStatement(msgs, name)
    ensures var t := Run(env, s, msgs);
            (name in t.stmts <==> name in s.stmts) && (name in s.stmts ==> t.stmts[name] == s.stmts[name])
    decreases |msgs|
  {
    hide Step;
    if msgs != [] {
      StepSparesStatement(env, s, msgs[0], name);
      assert forall i :: 0 <= i < |msgs| - 1 ==> msgs[1..][i] == msgs[i + 1];
      RunSparesStatement(env, Step(env, s, msgs[0]), msgs[1..], name);
    }
  }

  lemma {:induction false} RunSparesPortal(env: Env, s: Session, msgs: seq<Message>, name: string)
    requires AllSparePortal(msgs, name)
    ensures var t := Run(env, s, msgs);
            (name in t.portals <==> name in s.portals) && (name in s.portals ==> t.portals[name] == s.portals[name])
    decreases |msgs|
  {
    hide Step;
    if msgs != [] {
      StepSparesPortal(env, s, msgs[0], name);
      assert forall i :: 0 <= i < |msgs| - 1 ==> msgs[1..][i] == msgs[i + 1];
      RunSparesPortal(env, Step(env, s, msgs[0]), msgs[1..], name);
    }
  }

  lemma StepIs(env: Env, s: Session, objectType: char, name: string, portal: string, ps: seq<Param>)
    ensures Active(s) ==>
              && Step(env, s, Close(objectType, name)) == HandleClose(s, objectType, name)
              && Step(env, s, Bind(portal, name, ps)) == HandleBind(s, portal, name, ps)
              && Step(env, s, Execute(name)) == HandleExecute(env, s, name)
  {
    hide HandleClose, HandleBind, HandleExecute;
  }

  /** After Close of a statement, and any messages that do not parse it again, a Bind of it fails. */
  lemma BindAfterClose(env: Env, s: Session, name: string, msgs: seq<Message>, portal: string, ps: seq<Param>)
    requires Active(s) && AllSpareStatement(msgs, name)
    ensures var t := Run(env, Step(env, s, Close('S', name)), msgs);
            Active(t) ==> Step(env, t, Bind(portal, name, ps)) == FailedWith(t, NoSuchStatement(name))
  {
    hide Run, Step, HandleClose, HandleBind;
    StatementClosed(s, name);
    var c := Step(env, s, Close('S', name));
    StepIs(env, s, 'S', name, portal, ps);
    StepIs(env, Run(env, c, msgs), 'S', name, portal, ps);
    RunSparesStatement(env, c, msgs, name);
    UnknownNames(env, Run(env, c, msgs), name);
  }

  /** After Close of a portal, and any messages that do not bind it again, an Execute of it fails. */
  lemma ExecuteAfterClose(env: Env, s: Session, name: string, msgs: seq<Message>)
    requires Active(s) && AllSparePortal(msgs, name)
    ensures var t := Run(env, Step(env, s, Close('P', name)), msgs);
            Active(t) ==> Step(env, t, Execute(name)) == FailedWith(t, NoSuchPortal(name))
  {
    hide Run, Step, HandleClose, HandleExecute;
    PortalClosed(s, name);
    var c := Step(env, s, Close('P', name));
    StepIs(env, s, 'P', name, name, []);
    StepIs(env, Run(env, c, msgs), 'P', name, name, []);
    RunSparesPortal(env, c, msgs, name);
    UnknownNames(env, Run(env, c, msgs), name);
  }

  // ------------------------------------------------------- from Bind to Execute

  lemma ExecutePortalMeans(env: Env, l: Link, p: Portal)
    ensures SameMeaning(l, ExecutePortal(env, l, p).0)
  {
    hide IsRowReturning, Apply, ColumnTypes;
  }

  lemma QueryMeans(env: Env, s: Session, text: string)
    ensures SameMeaning(s.link, HandleQuery(env, s, text).link)
  {
    hide LeadingKeyword, IsRowReturning, TrimSpace, CommandTag, StreamSimple, SameMeaning, ExecDirect;
    var q := env.rewrite(text);
    SameSelf(s.link);
    StreamMeans(env, s, q);
    ExecDirectMeans(env.driver, s.link, q);
    ExecDirectMeans(env.driver, s.link, "ROLLBACK");
  }

  lemma ExecDirectMeans(d: Driver, l: Link, q: string)
    ensures SameMeaning(l, ExecDirect(d, l, q).0)
  {
    hide Apply;
  }

  lemma DescribeMeans(env: Env, s: Session, objectType: char, name: string)
    ensures SameMeaning(s.link, HandleDescribe(env, s, objectType, name).link)
  {
    hide LeadingKeyword, ExecutePortal, DescribeStatement, SameMeaning;
    SameSelf(s.link);
    if name in s.stmts {
      DescribeStatementMeans(env, s, s.stmts[name]);
    }
    if name in s.portals {
      ExecutePortalMeans(env, s.link, s.portals[name]);
    }
  }

  lemma DescribeStatementMeans(env: Env, s: Session, ps: Statement)
    ensures SameMeaning(s.link, DescribeStatement(env, s, ps).link)
  {
    hide ColumnTypes, Ready;
  }

  lemma ExecuteMeans(env: Env, s: Session, name: string)
    ensures SameMeaning(s.link, HandleExecute(env, s, name).link)
  {
    hide LeadingKeyword, CommandTag, ExecutePortal, StreamPortal, ExecDirect, SameMeaning;
    SameSelf(s.link);
    ExecDirectMeans(env.driver, s.link, "ROLLBACK");
    if name in s.portals {
      var r := ExecutePortal(env, s.link, s.portals[name]);
      ExecutePortalMeans(env, s.link, s.portals[name]);
      var s1 := s.(link := r.0, portals := s.portals[name := r.1]);
      StreamPortalMeans(env, s1, name);
      SameMeaningTwice(s.link, r.0, StreamPortal(env, s1, name).link);
    }
  }

  lemma ParseMeans(env: Env, s: Session, name: string, text: string)
    ensures SameMeaning(s.link, HandleParse(env, s, name, text).link)
  {
    hide CountParams, Prepare, CloseStmt, SameMeaning;
    var r := Prepare(env.driver, s.link, env.rewrite(text)).0;
    PreparedMeans(env.driver, s.link, env.rewrite(text));
    SameSelf(s.link);
    if name in s.stmts {
      StmtClosingKeepsMeaning(r, s.stmts[name].handle);
      SameMeaningTwice(s.link, r, CloseStmt(r, s.stmts[name].handle));
    }
  }

  /** No message changes what an open handle holds. */
  lemma StepMeans(env: Env, s: Session, m: Message)
    ensures SameMeaning(s.link, Step(env, s, m).link)
  {
    hide HandleQuery, HandleParse, HandleDescribe, HandleExecute, ClosePortal, CloseStmt, SameMeaning;
    SameSelf(s.link);
    match m
    case Query(text) => QueryMeans(env, s, text);
    case Parse(name, text) => ParseMeans(env, s, name, text);
    case Bind(portal, _, _) =>
      if portal in s.portals {
        PortalClosingKeepsMeaning(s.link, s.portals[portal]);
      }
    case Describe(objectType, name) => DescribeMeans(env, s, objectType, name);
    case Execute(portal) => ExecuteMeans(env, s, portal);
    case Close(_, name) =>
      if name in s.stmts {
        StmtClosingKeepsMeaning(s.link, s.stmts[name].handle);
      }
      if name in s.portals {
        PortalClosingKeepsMeaning(s.link, s.portals[name]);
      }
    case _ =>
  }

  lemma {:induction false} RunMeans(env: Env, s: Session, msgs: seq<Message>)
    ensures SameMeaning(s.link, Run(env, s, msgs).link)
    decreases |msgs|
  {
    hide Step, SameMeaning;
    SameSelf(s.link);
    if msgs != [] {
      var t := Step(env, s, msgs[0]);
      StepMeans(env, s, msgs[0]);
      RunMeans(env, t, msgs[1..]);
      SameMeaningTwice(s.link, t.link, Run(env, s, msgs).link);
    }
  }

  /** Executing a portal that has not run and whose statement is open runs that statement with the values of
      the portal, on the database as it is then. */
  lemma ExecuteRuns(env: Env, t: Session, portal: string, q: string, ps: seq<Param>)
    requires Active(t) && t.status != Failed && portal in t.portals
    requires var p := t.portals[portal];
             && !p.executed && p.rows.None? && p.params == ps && p.ps.query == q
             && p.ps.handle in t.link.stmts && t.link.stmts[p.ps.handle] == Prepared(q, |ps|)
    requires IsRowReturning(q) ==> env.driver.columns(t.link.db.working, q).Ok?
    ensures var x := Step(env, t, Execute(portal));
            && x.link.db == Apply(env.driver, t.link.db, q, ps).0
            && x.link.log == t.link.log + [Ran(Some(t.portals[portal].id), q)]
  {
    hide IsRowReturning, LeadingKeyword, CommandTag, Apply, Collect;
  }

  /** The values of an accepted Bind are those its statement runs with at the Execute, whatever messages come
      between that do not name the portal or the statement again. */
  lemma BoundValuesRun(env: Env, s: Session, portal: string, statement: string, ps: seq<Param>, msgs: seq<Message>)
    requires Active(s) && Conserved(s) && statement in s.stmts
    requires AllSpareStatement(msgs, statement) && AllSparePortal(msgs, portal)
    requires s.stmts[statement].handle in s.link.stmts
    requires s.link.stmts[s.stmts[statement].handle] == Prepared(s.stmts[statement].query, |ps|)
    ensures var q := s.stmts[statement].query;
            var t := Run(env, Step(env, s, Bind(portal, statement, ps)), msgs);
            var x := Step(env, t, Execute(portal));
            Active(t) && t.status != Failed && (IsRowReturning(q) ==> env.driver.columns(t.link.db.working, q).Ok?) ==>
              && x.link.db == Apply(env.driver, t.link.db, q, ps).0
              && x.link.log == t.link.log + [Ran(Some(s.bound), q)]
  {
    hide Step, Run, IsRowReturning, Apply, Conserved, SameMeaning;
    var q, h := s.stmts[statement].query, s.stmts[statement].handle;
    var b := Step(env, s, Bind(portal, statement, ps));
    var t := Run(env, b, msgs);
    BindStep(env, s, portal, statement, ps);
    BindsValues(s, portal, statement, ps);
    RunSparesStatement(env, b, msgs, statement);
    RunSparesPortal(env, b, msgs, portal);
    StepConserves(env, s, Bind(portal, statement, ps));
    RunConserves(env, b, msgs);
    RunMeans(env, b, msgs);
    HandleHeld(b, t, statement, h, q, |ps|);
    if Active(t) && t.status != Failed && (IsRowReturning(q) ==> env.driver.columns(t.link.db.working, q).Ok?) {
      ExecuteRuns(env, t, portal, q, ps);
    }
  }

  lemma BindStep(env: Env, s: Session, portal: string, statement: string, ps: seq<Param>)
    requires Active(s)
    ensures Step(env, s, Bind(portal, statement, ps)) == HandleBind(s, portal, statement, ps)
    ensures statement in s.stmts ==> HandleBind(s, portal, statement, ps).portals[portal].id == s.bound
  {
  }

  lemma HandleHeld(b: Session, t: Session, statement: string, h: nat, q: string, n: nat)
    requires Conserved(b) && Conserved(t) && SameMeaning(b.link, t.link) && statement in b.stmts && statement in t.stmts
    requires b.stmts[statement].handle == h == t.stmts[statement].handle && h in b.link.stmts && b.link.stmts[h] == Prepared(q, n)
    ensures h in t.link.stmts && t.link.stmts[h] == Prepared(q, n)
  {
  }
}

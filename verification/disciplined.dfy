/** A client can see from its own messages alone that its run is disciplined: every Execute
    follows the Bind of its portal, with at most the Describe of that portal in between. */
module DisciplinedClients {
  import opened Text
  import opened Command
  import opened Sqlite
  import opened SessionSpec
  import opened Transactions

  predicate TextTracked(env: Env, m: Message) {
    m.Query? || m.Parse? ==> Tracked(env, env.rewrite(m.text))
  }

  predicate Binds(m: Message, portal: string) {
    m.Bind? && m.portal == portal
  }

  /** The i-th message, seen with its neighbours. */
  predicate Grouped(msgs: seq<Message>, i: nat)
    requires i < |msgs|
  {
    && (msgs[i].Execute? ==>
          || (i >= 1 && Binds(msgs[i - 1], msgs[i].portal))
          || (i >= 2 && msgs[i - 1] == Describe('P', msgs[i].portal) && Binds(msgs[i - 2], msgs[i].portal)))
    && (msgs[i].Describe? && msgs[i].objectType == 'P' ==> i + 1 < |msgs| && msgs[i + 1] == Execute(msgs[i].name))
  }

  predicate Standard(env: Env, msgs: seq<Message>) {
    forall i :: 0 <= i < |msgs| ==> TextTracked(env, msgs[i]) && Grouped(msgs, i)
  }

  /** A Bind leaves a portal that has not run, or the session skips. */
  lemma BoundIsNew(env: Env, s: Session, m: Message, portal: string)
    requires Binds(m, portal)
    ensures var t := Step(env, s, m); Active(t) ==> portal in t.portals && !t.portals[portal].executed
  {
    hide ClosePortal;
  }

  /** A Describe that leaves its portal spent either is pending or did not touch it. */
  lemma DescribedIsPending(env: Env, s: Session, portal: string)
    requires portal in s.portals && !s.portals[portal].executed
    ensures var m := Describe('P', portal); var t := Step(env, s, m);
            Active(t) && t.status != Failed && TxPortal(t, portal) && Spent(t.portals[portal]) ==>
              Described(env, s, m) == Some(portal)
  {
    hide LeadingKeyword, KeywordKind, IsRowReturning, ExecStmt, QueryStmt, ColumnTypes, CloseCursor;
  }

  /** Runs of such clients are disciplined, whatever the engine does. */
  lemma StandardIsDisciplined(env: Env, s: Session, msgs: seq<Message>)
    requires Standard(env, msgs)
    ensures Disciplined(env, s, msgs)
  {
    hide Step, Tracked, TxPortal, Spent, Described, Run;
    forall i | 0 <= i < |msgs|
      ensures Allowed(env, At(env, s, msgs, i), PendingAt(env, s, msgs, i), msgs[i])
    {
      PendingIsNext(env, s, msgs, i);
      if msgs[i].Execute? {
        ExecuteIsFirst(env, s, msgs, i);
      }
    }
  }

  lemma PendingIsNext(env: Env, s: Session, msgs: seq<Message>, i: nat)
    requires Standard(env, msgs) && i < |msgs|
    ensures var pending := PendingAt(env, s, msgs, i); pending.Some? ==> msgs[i] == Execute(pending.value)
  {
    hide Step, TxPortal, TextTracked;
    if i > 0 {
      assert Grouped(msgs, i - 1);
    }
  }

  lemma ExecuteIsFirst(env: Env, s: Session, msgs: seq<Message>, i: nat)
    requires Standard(env, msgs) && i < |msgs| && msgs[i].Execute?
    ensures var here := At(env, s, msgs, i);
            PendingAt(env, s, msgs, i) == None && Active(here) && here.status != Failed && TxPortal(here, msgs[i].portal) ==>
              !Spent(here.portals[msgs[i].portal])
  {
    hide Step, TxPortal, Spent, TextTracked, Described, Run;
    assert Grouped(msgs, i);
    var portal := msgs[i].portal;
    AtStep(env, s, msgs, i - 1);
    if Binds(msgs[i - 1], portal) {
      BoundIsNew(env, At(env, s, msgs, i - 1), msgs[i - 1], portal);
      NewIsUnspent(At(env, s, msgs, i), portal);
    } else {
      AtStep(env, s, msgs, i - 2);
      BoundIsNew(env, At(env, s, msgs, i - 2), msgs[i - 2], portal);
      if Active(At(env, s, msgs, i - 1)) {
        DescribedIsPending(env, At(env, s, msgs, i - 1), portal);
      } else {
        StaysInactive(env, At(env, s, msgs, i - 1), msgs[i - 1]);
      }
    }
  }

  lemma NewIsUnspent(s: Session, portal: string)
    ensures portal in s.portals && !s.portals[portal].executed ==> !Spent(s.portals[portal])
  {
  }

  lemma StaysInactive(env: Env, s: Session, m: Message)
    requires !m.Sync? && !Active(s)
    ensures !Active(Step(env, s, m))
  {
    hide HandleQuery, HandleParse, HandleBind, HandleDescribe, HandleExecute, HandleClose;
  }

  /** A statement a simple query runs as it is, for its effect only. */
  ghost predicate Runnable(env: Env, text: string) {
    var q := env.rewrite(text);
    TrimSpace(q) != "" && Tracked(env, q) && !IsRowReturning(q) && forall c :: env.driver.prepare(c, q) == Ok(0)
  }

  lemma OneStatement(env: Env, s: Session, text: string)
    requires Active(s) && s.status != Failed && Runnable(env, text)
    ensures var q := env.rewrite(text);
            var (db, y) := Apply(env.driver, s.link.db, q, []);
            var t := Step(env, s, Query(text));
            && Active(t) && t.link.db == db
            && t.status == if y.failure.Some? then AfterError(s.status) else Noted(s.status, LeadingKeyword(q))
  {
    hide LeadingKeyword, IsRowReturning, TrimSpace, CommandTag, KeywordKind;
  }

  lemma EndOfFailed(env: Env, s: Session, text: string)
    requires Active(s) && s.status == Failed
    requires TrimSpace(env.rewrite(text)) != "" && EndsBlock(LeadingKeyword(env.rewrite(text)))
    ensures Step(env, s, Query(text)).status == Idle
  {
    hide LeadingKeyword, IsRowReturning, TrimSpace, ExecDirect;
  }

  /** A block that begins, fails in a statement and is ended by COMMIT or ROLLBACK alike: the
      content is what it was, whatever the failing statement did and whatever kind of failure it was. */
  lemma FailingBlock(env: Env, content: Content, begin: string, bad: string, end: string)
    requires KnowsRollback(env) && Runnable(env, begin) && Runnable(env, bad) && Runnable(env, end)
    requires KeywordKind(env.rewrite(begin)) == Begin && env.driver.run(content, env.rewrite(begin), []).failure.None?
    requires KeywordKind(env.rewrite(bad)) == Ordinary && env.driver.run(content, env.rewrite(bad), []).failure.Some?
    requires EndsBlock(LeadingKeyword(env.rewrite(end)))
    ensures var msgs := [Query(begin), Query(bad), Query(end)];
            && Disciplined(env, Fresh(content), msgs) && Inside(env, Fresh(content), msgs, 0, 2)
            && At(env, Fresh(content), msgs, 2).status == Failed && At(env, Fresh(content), msgs, 3).status == Idle
            && At(env, Fresh(content), msgs, 3).link.db == Db(content, content, false)
  {
    hide Step, Run, LeadingKeyword, KeywordKind, IsRowReturning, TrimSpace, KnowsRollback, Disciplined;
    var s0, msgs := Fresh(content), [Query(begin), Query(bad), Query(end)];
    BeforeAny(env, s0, msgs);
    AtStep(env, s0, msgs, 0);
    AtStep(env, s0, msgs, 1);
    AtStep(env, s0, msgs, 2);
    NotedKind(env.rewrite(begin), Idle);
    OneStatement(env, s0, begin);
    OneStatement(env, At(env, s0, msgs, 1), bad);
    EndOfFailed(env, At(env, s0, msgs, 2), end);
    StandardIsDisciplined(env, s0, msgs);
    FailedLeavesNoTrace(env, content, msgs, 0, 2);
  }
}

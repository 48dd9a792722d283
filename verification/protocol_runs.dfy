/** Whole runs over the two protocol paths: a list of statements sent as simple queries, and the same
    list sent as batches, end alike statement by statement. */
module ProtocolRuns {
  import opened Text
  import opened Command
  import opened Sqlite
  import opened SessionSpec
  import opened Replies
  import opened Resources
  import opened Transactions
  import opened Protocols

  function Simple(text: string): seq<Message> {
    [Query(text)]
  }

  function AllSimple(texts: seq<string>): seq<Message> {
    if texts == [] then [] else Simple(texts[0]) + AllSimple(texts[1..])
  }

  /** The batches go through one statement name and one portal name. */
  function AllBatches(statement: string, portal: string, texts: seq<string>): seq<Message> {
    if texts == [] then [] else Batch(statement, portal, texts[0], []) + AllBatches(statement, portal, texts[1..])
  }

  /** What a client learns from a statement: its outcome and the status after it. */
  datatype Report = Report(outcome: Outcome, status: Status)

  function ReportOf(s: Session, t: Session): Report {
    Report(OutcomeOf(if s.out <= t.out then t.out[|s.out|..] else []), t.status)
  }

  function SimpleReports(env: Env, s: Session, texts: seq<string>): seq<Report>
    decreases |texts|
  {
    if texts == [] then []
    else
      var t := Run(env, s, Simple(texts[0]));
      [ReportOf(s, t)] + SimpleReports(env, t, texts[1..])
  }

  function BatchReports(env: Env, s: Session, statement: string, portal: string, texts: seq<string>): seq<Report>
    decreases |texts|
  {
    if texts == [] then []
    else
      var t := Run(env, s, Batch(statement, portal, texts[0], []));
      [ReportOf(s, t)] + BatchReports(env, t, statement, portal, texts[1..])
  }

  /** The paths meet in every statement, when its turn comes. */
  predicate Comparable(env: Env, s: Session, texts: seq<string>)
    decreases |texts|
  {
    texts == [] ||
    (var q := env.rewrite(texts[0]);
     && TrimSpace(q) != "" && PathsMeet(env, s, q)
     && Comparable(env, Run(env, s, Simple(texts[0])), texts[1..]))
  }

  /** Sessions that differ at most in handles, names and the replies so far. */
  ghost predicate Alike(a: Session, b: Session) {
    && a.link.db == b.link.db && a.status == b.status && Queries(a.link.log) == Queries(b.link.log)
    && Active(a) && Active(b) && Conserved(a) && Conserved(b)
  }

  /** What a statement amounts to only depends on database and status. */
  lemma SameVerdict(env: Env, a: Session, b: Session, q: string)
    requires a.link.db == b.link.db && a.status == b.status
    ensures ExtendedEnd(env, a, q, []) == ExtendedEnd(env, b, q, [])
  {
    hide LeadingKeyword, IsRowReturning, CommandTag, Apply, Collect;
  }

  lemma {:induction false} RunStaysActive(env: Env, s: Session, msgs: seq<Message>)
    requires !s.over && forall i :: 0 <= i < |msgs| ==> !msgs[i].Terminate? && !msgs[i].Unexpected?
    ensures !Run(env, s, msgs).over
    decreases |msgs|
  {
    hide Step;
    if msgs != [] {
      StaysOpen(env, s, msgs[0]);
      RunStaysActive(env, Step(env, s, msgs[0]), msgs[1..]);
    }
  }

  lemma StaysOpen(env: Env, s: Session, m: Message)
    requires !s.over && !m.Terminate? && !m.Unexpected?
    ensures !Step(env, s, m).over
  {
    hide HandleQuery, HandleParse, HandleBind, HandleDescribe, HandleExecute, HandleClose;
    if s.skip ==> m.Sync? {
      var rs := StepAnswers(env, s, m);
    }
  }

  lemma SimpleStaysActive(env: Env, s: Session, text: string)
    requires Active(s)
    ensures Run(env, s, Simple(text)) == HandleQuery(env, s, text) && Active(HandleQuery(env, s, text))
  {
    hide HandleQuery;
    assert Simple(text)[1..] == [];
    var rs := QueryAnswers(env, s, text);
  }

  lemma BatchStaysActive(env: Env, s: Session, statement: string, portal: string, text: string)
    requires Active(s)
    ensures Active(Run(env, s, Batch(statement, portal, text, [])))
  {
    hide Run, Step;
    var front := [Parse(statement, text), Bind(portal, statement, []), Describe('P', portal), Execute(portal)];
    assert Batch(statement, portal, text, []) == front + [Sync];
    RunStaysActive(env, s, front);
    RunAppend(env, s, front, [Sync]);
    var t := Run(env, s, front);
    assert [Sync] + [] == [Sync];
    RunFirst(env, t, Sync, []);
    SyncEnds(env, t);
  }

  lemma SyncEnds(env: Env, t: Session)
    requires !t.over
    ensures Active(Step(env, t, Sync)) && Run(env, Step(env, t, Sync), []) == Step(env, t, Sync)
  {
  }

  lemma EndsAlike(a: Session, a': Session, b: Session, b': Session, e: End)
    requires EndsAs(a, a', e) && EndsAs(b, b', e) && Queries(a.link.log) == Queries(b.link.log)
    ensures a'.link.db == b'.link.db && a'.status == b'.status && Queries(a'.link.log) == Queries(b'.link.log)
    ensures ReportOf(a, a') == ReportOf(b, b')
  {
    hide Queries, OutcomeOf;
  }

  /** One statement. */
  lemma AlikeStep(env: Env, a: Session, b: Session, statement: string, portal: string, text: string)
    requires Alike(a, b)
    requires TrimSpace(env.rewrite(text)) != "" && PathsMeet(env, a, env.rewrite(text))
    ensures var a', b' := Run(env, a, Simple(text)), Run(env, b, Batch(statement, portal, text, []));
            Alike(a', b') && ReportOf(a, a') == ReportOf(b, b')
  {
    hide Run, TrimSpace, PathsMeet, Conserved, HandleQuery, EndsAs, SimpleEnd, ExtendedEnd, ReportOf, Queries, Batch, Simple;
    var q := env.rewrite(text);
    SimpleStaysActive(env, a, text);
    BatchStaysActive(env, b, statement, portal, text);
    RunConserves(env, a, Simple(text));
    RunConserves(env, b, Batch(statement, portal, text, []));
    SimpleEnds(env, a, text);
    ExtendedEnds(env, b, statement, portal, text, []);
    EndsMeet(env, a, q);
    SameVerdict(env, a, b, q);
    EndsAlike(a, HandleQuery(env, a, text), b, Run(env, b, Batch(statement, portal, text, [])), SimpleEnd(env, a, q));
  }

  /** Over any list of comparable statements the two paths report the same, statement by statement, and
      leave the same database, status and statements run. */
  lemma {:induction false} RunsAgree(env: Env, a: Session, b: Session, statement: string, portal: string, texts: seq<string>)
    requires Alike(a, b) && Comparable(env, a, texts)
    ensures SimpleReports(env, a, texts) == BatchReports(env, b, statement, portal, texts)
    ensures Alike(Run(env, a, AllSimple(texts)), Run(env, b, AllBatches(statement, portal, texts)))
    decreases |texts|
  {
    hide Run, TrimSpace, PathsMeet, Alike, Batch, Simple, ReportOf;
    if texts == [] {
      NoneRun(env, a);
      NoneRun(env, b);
    } else {
      var first, rest := texts[0], texts[1..];
      AlikeMeans(a, b);
      AlikeStep(env, a, b, statement, portal, first);
      var a', b' := Run(env, a, Simple(first)), Run(env, b, Batch(statement, portal, first, []));
      RunsAgree(env, a', b', statement, portal, rest);
      RunAppend(env, a, Simple(first), AllSimple(rest));
      RunAppend(env, b, Batch(statement, portal, first, []), AllBatches(statement, portal, rest));
    }
  }

  lemma NoneRun(env: Env, s: Session)
    ensures Run(env, s, []) == s
  {
  }

  lemma AlikeMeans(a: Session, b: Session)
    requires Alike(a, b)
    ensures a.link.db == b.link.db
  {
  }

  // ------------------------------------------------------------- tracked statements

  /** The text has no parameters, or the transaction is failed; when it cannot be prepared it is not. */
  predicate MayRun(env: Env, s: Session, q: string) {
    match env.driver.prepare(s.link.db.working, q)
    case Err(_) => s.status != Failed
    case Ok(n) => n == 0 || s.status == Failed
  }

  /** Every statement is tracked and, when its turn comes, may run. */
  predicate TrackedTexts(env: Env, s: Session, texts: seq<string>)
    decreases |texts|
  {
    texts == [] ||
    (var q := env.rewrite(texts[0]);
     && TrimSpace(q) != "" && Tracked(env, q) && MayRun(env, s, q)
     && TrackedTexts(env, Run(env, s, Simple(texts[0])), texts[1..]))
  }

  lemma {:induction false} TrackedIsComparable(env: Env, s: Session, texts: seq<string>)
    requires TrackedTexts(env, s, texts)
    ensures Comparable(env, s, texts)
    decreases |texts|
  {
    hide Run, TrimSpace, Tracked, PathsMeet, Simple;
    if texts != [] {
      TrackedStays(env, s, env.rewrite(texts[0]));
      TrackedIsComparable(env, Run(env, s, Simple(texts[0])), texts[1..]);
    }
  }

  lemma TrackedStays(env: Env, s: Session, q: string)
    requires Tracked(env, q) && MayRun(env, s, q)
    ensures PathsMeet(env, s, q)
  {
    hide IsRowReturning, LeadingKeyword, KeywordKind, Verdict;
    NotedKind(q, s.status);
  }

  /** From a new connection: clients of the two paths see the same reports for the same tracked
      statements, and leave the same content committed. */
  lemma SameForClients(env: Env, content: Content, statement: string, portal: string, texts: seq<string>)
    requires TrackedTexts(env, Fresh(content), texts)
    ensures SimpleReports(env, Fresh(content), texts) == BatchReports(env, Fresh(content), statement, portal, texts)
    ensures var a, b := Run(env, Fresh(content), AllSimple(texts)), Run(env, Fresh(content), AllBatches(statement, portal, texts));
            a.link.db == b.link.db && a.status == b.status && Queries(a.link.log) == Queries(b.link.log)
  {
    hide Run, TrackedTexts, Comparable, AllSimple, AllBatches, SimpleReports, BatchReports;
    TrackedIsComparable(env, Fresh(content), texts);
    RunsAgree(env, Fresh(content), Fresh(content), statement, portal, texts);
  }
}

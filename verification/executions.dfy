/** At-most-once execution: Describe and Execute share the one run of a portal. */
module Executions {
  import opened Text
  import opened Command
  import opened Sqlite
  import opened SessionSpec
  import opened Replies

  /** How often the engine ran a statement for the portal with this number. */
  function Runs(log: seq<Ran>, id: nat): nat {
    if log == [] then 0 else Runs(log[..|log| - 1], id) + if log[|log| - 1].owner == Some(id) then 1 else 0
  }

  lemma RunsOneMore(log: seq<Ran>, r: Ran, id: nat)
    ensures Runs(log + [r], id) == Runs(log, id) + if r.owner == Some(id) then 1 else 0
  {
  }

  /** A portal that has not run yet: not executed, or holding a cursor that is still unread. */
  predicate Unrun(p: Portal) {
    !p.executed || p.rows.Some?
  }

  ghost predicate PortalOnce(l: Link, p: Portal, bound: nat) {
    && p.id < bound
    && (Unrun(p) ==> Runs(l.log, p.id) == 0)
    && (!p.executed ==> p.rows.None?)
    && (p.rows.Some? && p.rows.value in l.cursors ==> l.cursors[p.rows.value].owner == Some(p.id))
    && (p.rows.Some? ==> p.rows.value < l.next)
  }

  ghost predicate Once(l: Link, portals: map<string, Portal>, bound: nat) {
    && (forall id: nat :: Runs(l.log, id) <= 1)
    && (forall id: nat :: id >= bound ==> Runs(l.log, id) == 0)
    && (forall n :: n in portals ==> PortalOnce(l, portals[n], bound))
    && (forall m, n :: m in portals && n in portals && portals[m].id == portals[n].id ==> m == n)
  }

  ghost predicate RunsOnce(s: Session) {
    Once(s.link, s.portals, s.bound)
  }

  /** The link changed without running a portal: cursors kept or closed, or opened anew. */
  ghost predicate Quiet(a: Link, b: Link) {
    && a.next <= b.next
    && (forall id: nat :: Runs(b.log, id) == Runs(a.log, id))
    && (forall c :: c in b.cursors && c < a.next ==> c in a.cursors && b.cursors[c] == a.cursors[c])
  }

  lemma QuietKeeps(a: Link, b: Link, portals: map<string, Portal>, bound: nat)
    requires Once(a, portals, bound) && Quiet(a, b)
    ensures Once(b, portals, bound)
  {
  }

  lemma QuietTwice(a: Link, b: Link, c: Link)
    requires Quiet(a, b) && Quiet(b, c)
    ensures Quiet(a, c)
  {
  }

  lemma RunNowQuiet(d: Driver, l: Link, q: string, ps: seq<Param>)
    ensures Quiet(l, RunNow(d, l, q, ps, None).0)
  {
  }

  lemma ExecDirectQuiet(d: Driver, l: Link, q: string)
    ensures Quiet(l, ExecDirect(d, l, q).0)
  {
  }

  lemma StreamQuiet(env: Env, s: Session, q: string)
    ensures Quiet(s.link, StreamSimple(env, s, q).link)
    ensures StreamSimple(env, s, q).portals == s.portals && StreamSimple(env, s, q).bound == s.bound
  {
    hide StreamSimple, RunNow, Quiet;
    StreamLinks(env, s, q);
    var c, l := s.link.next, OpenCursor(s.link, Cursor(q, [], None, None)).0;
    var d := RunNow(env.driver, l, q, [], None).0;
    SameQuiet(s.link);
    HandlesQuiet(s.link, Cursor(q, [], None, None), c);
    RunNowQuiet(env.driver, l, q, []);
    QuietTwice(s.link, l, d);
    HandlesQuiet(l, Cursor(q, [], None, None), c);
    HandlesQuiet(d, Cursor(q, [], None, None), c);
    QuietTwice(s.link, l, CloseCursor(l, c));
    QuietTwice(s.link, d, CloseCursor(d, c));
  }

  lemma HandlesQuiet(l: Link, cur: Cursor, c: nat)
    ensures Quiet(l, OpenCursor(l, cur).0) && Quiet(l, CloseCursor(l, c))
  {
  }

  lemma QueryOnce(env: Env, s: Session, text: string)
    requires RunsOnce(s)
    ensures RunsOnce(HandleQuery(env, s, text))
  {
    hide CommandTag, LeadingKeyword, IsRowReturning, TrimSpace, StreamSimple, ExecDirect, Quiet, Once;
    var q := env.rewrite(text);
    var t := HandleQuery(env, s, text);
    ExecDirectQuiet(env.driver, s.link, q);
    ExecDirectQuiet(env.driver, s.link, "ROLLBACK");
    StreamQuiet(env, s, q);
    SameQuiet(s.link);
    QuietKeeps(s.link, t.link, s.portals, s.bound);
  }

  lemma SameQuiet(l: Link)
    ensures Quiet(l, l)
  {
  }

  /** Running the statement of an unrun portal, whose cursor is gone afterwards. */
  lemma RunKeeps(d: Driver, l: Link, portals: map<string, Portal>, bound: nat, name: string, p: Portal,
                 q: string, ps: seq<Param>)
    requires Once(l, portals, bound) && name in portals && Unrun(portals[name])
    requires p.id == portals[name].id && p.executed && p.rows.None?
    ensures Once(RunNow(d, l, q, ps, Some(p.id)).0, portals[name := p], bound)
  {
    var after := RunNow(d, l, q, ps, Some(p.id)).0;
    assert PortalOnce(l, portals[name], bound);
    forall id: nat
      ensures Runs(after.log, id) == Runs(l.log, id) + if id == p.id then 1 else 0
    {
      RunsOneMore(l.log, Ran(Some(p.id), q), id);
    }
    var later := portals[name := p];
    forall n | n in later
      ensures PortalOnce(after, later[n], bound)
    {
      assert PortalOnce(l, portals[n], bound);
    }
  }

  /** Exchanging a portal for one of the same number that is no less run. */
  lemma ExchangeKeeps(l: Link, portals: map<string, Portal>, bound: nat, name: string, p: Portal)
    requires Once(l, portals, bound) && name in portals && p.id == portals[name].id && PortalOnce(l, p, bound)
    ensures Once(l, portals[name := p], bound)
  {
  }

  lemma ExecutePortalOnce(env: Env, s: Session, name: string)
    requires RunsOnce(s) && name in s.portals
    ensures var r := ExecutePortal(env, s.link, s.portals[name]);
            RunsOnce(s.(link := r.0, portals := s.portals[name := r.1]))
  {
    hide LeadingKeyword, IsRowReturning, RunNow, Once, ColumnTypes;
    var p := s.portals[name];
    var r := ExecutePortal(env, s.link, p);
    PortalIsOnce(s, name);
    if p.executed {
      assert s.portals[name := r.1] == s.portals;
    } else if !IsRowReturning(p.ps.query) {
      match Ready(s.link, p.ps.handle, p.params)
      case Err(_) => ExchangeKeeps(s.link, s.portals, s.bound, name, r.1);
      case Ok(q) => RunKeeps(env.driver, s.link, s.portals, s.bound, name, r.1, q, p.params);
    } else {
      SameQuiet(s.link);
      assert Quiet(s.link, r.0);
      QuietKeeps(s.link, r.0, s.portals, s.bound);
      ExchangeKeeps(r.0, s.portals, s.bound, name, r.1);
    }
  }

  lemma PortalIsOnce(s: Session, name: string)
    requires RunsOnce(s) && name in s.portals
    ensures PortalOnce(s.link, s.portals[name], s.bound)
  {
  }

  lemma StreamPortalOnce(env: Env, s: Session, name: string)
    requires RunsOnce(s) && name in s.portals && s.portals[name].executed
    ensures RunsOnce(StreamPortal(env, s, name))
  {
    hide LeadingKeyword, CommandTag, Collect, RunNow, Once, Quiet;
    var p := s.portals[name];
    if p.rows.Some? {
      PortalIsOnce(s, name);
      var c, closed := p.rows.value, p.(rows := None);
      var d := Drain(env.driver, s.link, c).0;
      if c in s.link.cursors && d != s.link {
        var cur := s.link.cursors[c];
        RunKeeps(env.driver, s.link, s.portals, s.bound, name, closed, cur.query, cur.params);
      } else {
        ExchangeKeeps(s.link, s.portals, s.bound, name, closed);
      }
      ClosingIsQuiet(d, c);
      QuietKeeps(d, CloseCursor(d, c), s.portals[name := closed], s.bound);
    }
  }

  lemma ClosingIsQuiet(l: Link, c: nat)
    ensures Quiet(l, CloseCursor(l, c))
  {
  }

  lemma ExecuteOnce(env: Env, s: Session, name: string)
    requires RunsOnce(s)
    ensures RunsOnce(HandleExecute(env, s, name))
  {
    hide LeadingKeyword, CommandTag, IsRowReturning, ExecutePortal, StreamPortal, ExecDirect, Once, Quiet;
    ExecDirectQuiet(env.driver, s.link, "ROLLBACK");
    QuietKeeps(s.link, ExecDirect(env.driver, s.link, "ROLLBACK").0, s.portals, s.bound);
    if name in s.portals {
      ExecutePortalOnce(env, s, name);
      var r := ExecutePortal(env, s.link, s.portals[name]);
      ExecutedNow(env, s.link, s.portals[name]);
      StreamPortalOnce(env, s.(link := r.0, portals := s.portals[name := r.1]), name);
    }
  }

  lemma ExecutedNow(env: Env, l: Link, p: Portal)
    ensures ExecutePortal(env, l, p).1.executed && ExecutePortal(env, l, p).1.id == p.id
  {
  }

  lemma DescribeOnce(env: Env, s: Session, objectType: char, name: string)
    requires RunsOnce(s)
    ensures RunsOnce(HandleDescribe(env, s, objectType, name))
  {
    hide LeadingKeyword, ExecutePortal, Once, ColumnTypes, Ready;
    if objectType == 'S' && name in s.stmts {
      var t := HandleDescribe(env, s, objectType, name);
      assert Quiet(s.link, t.link);
      QuietKeeps(s.link, t.link, s.portals, s.bound);
    } else if objectType == 'P' && name in s.portals {
      ExecutePortalOnce(env, s, name);
    }
  }

  lemma BindOnce(s: Session, portal: string, statement: string, params: seq<Param>)
    requires RunsOnce(s)
    ensures RunsOnce(HandleBind(s, portal, statement, params))
  {
    if statement in s.stmts {
      var t := HandleBind(s, portal, statement, params);
      hide Runs;
      if portal in s.portals && s.portals[portal].rows.Some? {
        ClosingIsQuiet(s.link, s.portals[portal].rows.value);
      } else {
        SameQuiet(s.link);
      }
      QuietKeeps(s.link, t.link, s.portals, s.bound);
      forall n | n in t.portals
        ensures PortalOnce(t.link, t.portals[n], t.bound)
      {
        assert n != portal ==> PortalOnce(t.link, s.portals[n], s.bound);
      }
    }
  }

  lemma ForgettingKeeps(l: Link, portals: map<string, Portal>, bound: nat, name: string)
    requires Once(l, portals, bound)
    ensures Once(l, portals - {name}, bound)
  {
  }

  lemma CloseOnce(s: Session, objectType: char, name: string)
    requires RunsOnce(s)
    ensures RunsOnce(HandleClose(s, objectType, name))
  {
    hide Runs, Once;
    var t := HandleClose(s, objectType, name);
    assert Quiet(s.link, t.link);
    QuietKeeps(s.link, t.link, s.portals, s.bound);
    if objectType == 'P' && name in s.portals {
      ForgettingKeeps(t.link, s.portals, s.bound, name);
    }
  }

  /** No message makes a portal run twice. */
  lemma StepOnce(env: Env, s: Session, m: Message)
    requires RunsOnce(s)
    ensures RunsOnce(Step(env, s, m))
  {
    hide HandleQuery, HandleBind, HandleDescribe, HandleExecute, HandleClose, CountParams, Once;
    match m
    case Query(text) => QueryOnce(env, s, text);
    case Parse(name, text) =>
      var t := HandleParse(env, s, name, text);
      assert Quiet(s.link, t.link);
      QuietKeeps(s.link, t.link, s.portals, s.bound);
    case Bind(portal, statement, params) => BindOnce(s, portal, statement, params);
    case Describe(objectType, name) => DescribeOnce(env, s, objectType, name);
    case Execute(portal) => ExecuteOnce(env, s, portal);
    case Close(objectType, name) => CloseOnce(s, objectType, name);
    case _ =>
  }

  lemma {:induction false} RunOnce(env: Env, s: Session, msgs: seq<Message>)
    requires RunsOnce(s)
    ensures RunsOnce(Run(env, s, msgs))
    decreases |msgs|
  {
    hide RunsOnce, Step;
    if msgs != [] {
      StepOnce(env, s, msgs[0]);
      RunOnce(env, Step(env, s, msgs[0]), msgs[1..]);
    }
  }

  /** Over any run every portal ever bound runs in the engine at most once. */
  lemma AtMostOnce(env: Env, content: Content, msgs: seq<Message>, id: nat)
    ensures Runs(Run(env, Fresh(content), msgs).link.log, id) <= 1
  {
    hide Run;
    assert RunsOnce(Fresh(content));
    RunOnce(env, Fresh(content), msgs);
  }

  // ------------------------------------------------------------ delivering the rows

  /** The Execute m delivers rows of the portal with this number. */
  predicate Delivers(env: Env, s: Session, m: Message, id: nat) {
    && m.Execute? && !s.over && !s.skip && m.portal in s.portals && s.portals[m.portal].id == id
    && exists i :: |s.out| <= i < |Step(env, s, m).out| && Step(env, s, m).out[i].DataRow?
  }

  lemma {:induction false} NoRowsNoReplies(rows: seq<Scanned>, failure: Option<Failure>)
    requires rows == [] && Collect(rows, failure).Ok?
    ensures Collect(rows, failure).value == []
  {
  }

  /** Rows come only from running the statement of the portal. */
  lemma DeliveryRuns(env: Env, s: Session, m: Message, id: nat)
    requires RunsOnce(s) && Delivers(env, s, m, id)
    ensures Runs(Step(env, s, m).link.log, id) == Runs(s.link.log, id) + 1
  {
    hide LeadingKeyword, CommandTag, IsRowReturning, Once, Apply, ExecutePortal, Collect, ExecDirect;
    var p := s.portals[m.portal];
    var r := ExecutePortal(env, s.link, p);
    PortalIsOnce(s, m.portal);
    ExecutePortalOnce(env, s, m.portal);
    PortalIsOnce(s.(link := r.0, portals := s.portals[m.portal := r.1]), m.portal);
    ExecutedNow(env, s.link, p);
    OpeningRunsNothing(env, s.link, p);
    if r.2.None? && r.1.rows.Some? {
      var c := r.1.rows.value;
      var d := Drain(env.driver, r.0, c);
      if d.1.rows == [] && Collect(d.1.rows, d.1.failure).Ok? {
        NoRowsNoReplies(d.1.rows, d.1.failure);
      }
      if c in r.0.cursors {
        RunsOneMore(r.0.log, Ran(Some(id), r.0.cursors[c].query), id);
      }
    }
  }

  lemma OpeningRunsNothing(env: Env, l: Link, p: Portal)
    requires !p.executed ==> p.rows.None?
    ensures var r := ExecutePortal(env, l, p); r.1.rows.Some? ==> r.0.log == l.log
  {
  }

  lemma StepLogs(env: Env, s: Session, m: Message, id: nat)
    ensures Runs(Step(env, s, m).link.log, id) >= Runs(s.link.log, id)
  {
    assert s.link.log <= Step(env, s, m).link.log by {
      LogGrows(env, s, m);
    }
    PrefixRuns(s.link.log, Step(env, s, m).link.log, id);
  }

  lemma {:induction false} PrefixRuns(a: seq<Ran>, b: seq<Ran>, id: nat)
    requires a <= b
    ensures Runs(b, id) >= Runs(a, id)
    decreases |b|
  {
    if |a| == |b| {
      assert a == b;
    } else {
      PrefixRuns(a, b[..|b| - 1], id);
    }
  }

  lemma RunNowLogs(d: Driver, l: Link, q: string, ps: seq<Param>, owner: Option<nat>)
    ensures l.log <= RunNow(d, l, q, ps, owner).0.log
  {
  }

  lemma ExecLogs(d: Driver, l: Link, q: string)
    ensures l.log <= ExecDirect(d, l, q).0.log
  {
  }

  lemma DrainLogs(d: Driver, l: Link, c: nat)
    ensures l.log <= Drain(d, l, c).0.log
  {
  }

  lemma PortalLogs(env: Env, l: Link, p: Portal)
    ensures l.log <= ExecutePortal(env, l, p).0.log
  {
  }

  lemma QueryLogs(env: Env, s: Session, text: string)
    ensures s.link.log <= HandleQuery(env, s, text).link.log
  {
    hide LeadingKeyword, CommandTag, IsRowReturning, TrimSpace, ExecDirect, StreamSimple, RunNow;
    var q := env.rewrite(text);
    ExecLogs(env.driver, s.link, q);
    ExecLogs(env.driver, s.link, "ROLLBACK");
    StreamLinks(env, s, q);
    RunNowLogs(env.driver, OpenCursor(s.link, Cursor(q, [], None, None)).0, q, [], None);
  }

  lemma ExecuteLogs(env: Env, s: Session, name: string)
    ensures s.link.log <= HandleExecute(env, s, name).link.log
  {
    hide LeadingKeyword, CommandTag, ExecutePortal, ExecDirect, Drain, Collect, AfterError, Noted;
    ExecLogs(env.driver, s.link, "ROLLBACK");
    if name in s.portals {
      var r := ExecutePortal(env, s.link, s.portals[name]);
      PortalLogs(env, s.link, s.portals[name]);
      if r.1.rows.Some? {
        DrainLogs(env.driver, r.0, r.1.rows.value);
      }
    }
  }

  lemma LogGrows(env: Env, s: Session, m: Message)
    ensures s.link.log <= Step(env, s, m).link.log
  {
    hide LeadingKeyword, CountParams, HandleQuery, HandleExecute, ExecutePortal, Prepare, QueryStmt, ColumnTypes;
    match m
    case Query(text) => QueryLogs(env, s, text);
    case Execute(portal) => ExecuteLogs(env, s, portal);
    case Describe(objectType, name) =>
      DescribeLogs(env, s, objectType, name);
    case Parse(name, text) => PrepareLogs(env.driver, s.link, env.rewrite(text));
    case _ =>
  }

  lemma PrepareLogs(d: Driver, l: Link, q: string)
    ensures Prepare(d, l, q).0.log == l.log
  {
  }

  lemma DescribeLogs(env: Env, s: Session, objectType: char, name: string)
    ensures s.link.log <= HandleDescribe(env, s, objectType, name).link.log
  {
    hide LeadingKeyword, ExecutePortal, ColumnTypes, Ready;
    if name in s.portals {
      PortalLogs(env, s.link, s.portals[name]);
    }
  }

  lemma {:induction false} RunLogs(env: Env, s: Session, msgs: seq<Message>, id: nat)
    ensures Runs(Run(env, s, msgs).link.log, id) >= Runs(s.link.log, id)
    decreases |msgs|
  {
    hide Step;
    if msgs != [] {
      StepLogs(env, s, msgs[0], id);
      RunLogs(env, Step(env, s, msgs[0]), msgs[1..], id);
    }
  }

  /** In any run the rows of a portal are delivered by at most one Execute. */
  lemma RowsDeliveredOnce(env: Env, content: Content, before: seq<Message>, m1: Message,
                          between: seq<Message>, m2: Message, id: nat)
    requires var s1 := Run(env, Fresh(content), before); Delivers(env, s1, m1, id)
    ensures var s1 := Run(env, Fresh(content), before);
            var s2 := Run(env, Step(env, s1, m1), between);
            !Delivers(env, s2, m2, id)
  {
    hide Step, Run, RunsOnce, Delivers;
    var s1 := Run(env, Fresh(content), before);
    var s2 := Run(env, Step(env, s1, m1), between);
    assert RunsOnce(Fresh(content)) by {
      FreshRunsOnce(content);
    }
    RunOnce(env, Fresh(content), before);
    DeliveryRuns(env, s1, m1, id);
    StepOnce(env, s1, m1);
    RunOnce(env, Step(env, s1, m1), between);
    RunLogs(env, Step(env, s1, m1), between, id);
    if Delivers(env, s2, m2, id) {
      DeliveryRuns(env, s2, m2, id);
      StepOnce(env, s2, m2);
      OnceMeansOnce(Step(env, s2, m2), id);
    }
  }

  lemma FreshRunsOnce(content: Content)
    ensures RunsOnce(Fresh(content))
  {
  }

  lemma OnceMeansOnce(s: Session, id: nat)
    requires RunsOnce(s)
    ensures Runs(s.link.log, id) <= 1
  {
  }
}

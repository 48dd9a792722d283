/** Runs in which the reported status is not the engine's: one for each thing a disciplined client
    does not do. The engine of these runs accepts every statement and reads it by its first word. */
module Departures {
  import opened Text
  import opened CallPattern
  import opened Command
  import opened Sqlite
  import opened SessionSpec
  import opened Replies
  import opened Resources
  import opened Transactions
  import opened Protocols

  const ENGINE := Driver((_, _) => Ok(0), (_, _) => Ok([]), q => KeywordKind(q), (c, _, _) => Effect(c, 0, [], None, false), None)
  const ENV := Env(text => text, ENGINE)

  // ------------------------------------------------------------- reading the texts

  lemma {:induction false} WordOf(w: string, rest: string)
    requires forall i :: 0 <= i < |w| ==> !IsSpace(w[i])
    requires rest == "" || IsSpace(rest[0])
    ensures WordLen(w + rest) == |w|
  {
    if w == "" {
      assert w + rest == rest;
    } else {
      assert (w + rest)[1..] == w[1..] + rest;
      WordOf(w[1..], rest);
    }
  }

  lemma FirstWord(w: string, rest: string)
    requires w != "" && w[0] != '(' && forall i :: 0 <= i < |w| ==> !IsSpace(w[i])
    requires rest == "" || IsSpace(rest[0])
    ensures LeadingKeyword(w + rest) == ToUpper(w)
  {
    WordOf(w, rest);
    assert Bare(w + rest) == w + rest;
    Front(w, rest);
  }

  lemma {:induction false} NoWordWithout(s: string, word: string, boundary: bool)
    requires word != "" && forall i :: 0 <= i < |s| ==> !Folds(s[i], word[0])
    ensures !HasWord(s, word, boundary)
  {
    if s != [] {
      NoWordWithout(s[1..], word, !IsWord(s[0]));
    }
  }

  lemma {:induction false} WordLater(a: string, b: string, word: string, boundary: bool)
    requires a != "" && !IsWord(a[|a| - 1]) && b != "" && HasWord(b, word, true)
    ensures HasWord(a + b, word, boundary)
  {
    assert (a + b)[1..] == a[1..] + b;
    if |a| > 1 {
      WordLater(a[1..], b, word, !IsWord(a[0]));
    }
  }

  lemma BeginIsControl()
    ensures KeywordKind("BEGIN") == Begin && !IsRowReturning("BEGIN")
  {
    hide HasWord, LeadingKeyword;
    FirstWord("BEGIN", "");
    assert "BEGIN" + "" == "BEGIN" && ToUpper("BEGIN") == "BEGIN";
    NoWordWithout("BEGIN", "returning", true);
  }

  lemma CommitIsControl()
    ensures KeywordKind("COMMIT") == Commit && !IsRowReturning("COMMIT") && LeadingKeyword("COMMIT") == "COMMIT"
  {
    hide HasWord, LeadingKeyword;
    FirstWord("COMMIT", "");
    assert "COMMIT" + "" == "COMMIT" && ToUpper("COMMIT") == "COMMIT";
    NoWordWithout("COMMIT", "returning", true);
  }

  const COMMENTED := "COMMIT /* returning */"

  lemma CommentedCommit()
    ensures KeywordKind(COMMENTED) == Commit && IsRowReturning(COMMENTED)
  {
    hide HasWord, LeadingKeyword;
    var comment := " /* returning */";
    assert "COMMIT" + comment == COMMENTED && ToUpper("COMMIT") == "COMMIT";
    FirstWord("COMMIT", comment);
    ReturningWord();
    assert "COMMIT /* " + "returning */" == COMMENTED;
    WordLater("COMMIT /* ", "returning */", "returning", true);
  }

  lemma ReturningWord()
    ensures HasWord("returning */", "returning", true)
  {
    hide Spells;
    SpellsItself("returning");
    SpellsMore("returning", " */", "returning");
    assert "returning" + " */" == "returning */";
  }

  lemma {:induction false} SpellsItself(kw: string)
    requires forall i :: 0 <= i < |kw| ==> 'a' <= kw[i] <= 'z'
    ensures Spells(kw, kw)
  {
    if kw != "" {
      SpellsItself(kw[1..]);
    }
  }

  // ----------------------------------------------------------- described, not executed

  /** BEGIN is described and the client syncs: I is reported while a transaction is open. */
  lemma DescribedRun(env: Env, content: Content, begin: string)
    requires var q := env.rewrite(begin);
             && env.driver.prepare(content, q) == Ok(0) && env.driver.kind(q) == Begin && !IsRowReturning(q)
             && env.driver.run(content, q, []).failure.None?
    ensures var t := Run(env, Fresh(content), [Parse("", begin), Bind("", "", []), Describe('P', ""), Sync]);
            t.out == [ParseComplete, BindComplete, NoData, ReadyForQuery(Idle)] && t.link.db.open
  {
    hide Run, Step, IsRowReturning, Conserved;
    var s := Fresh(content);
    var b := Step(env, Step(env, s, Parse("", begin)), Bind("", "", []));
    FreshConserved(content);
    ParseAndBind(env, s, "", "", begin, 0, []);
    FourSteps(env, s, Parse("", begin), Bind("", "", []), Describe('P', ""), Sync);
    DescribeRuns(env, s, b, env.rewrite(begin), "");
    SyncAnswers(env, Step(env, b, Describe('P', "")));
  }

  lemma FreshConserved(content: Content)
    ensures Conserved(Fresh(content))
  {
  }

  /** Describe runs the statement and leaves the status. */
  lemma DescribeRuns(env: Env, s: Session, b: Session, q: string, portal: string)
    requires Bound(s, b, q, portal, 0, []) && s.status != Failed && !IsRowReturning(q)
    requires Apply(env.driver, s.link.db, q, []).1.failure.None?
    ensures var d := Step(env, b, Describe('P', portal));
            && d.out == b.out + [NoData] && d.status == s.status && Active(d)
            && d.link.db == Apply(env.driver, s.link.db, q, []).0
  {
    hide IsRowReturning, Apply, LeadingKeyword;
  }

  lemma SyncAnswers(env: Env, s: Session)
    requires Active(s)
    ensures var t := Step(env, s, Sync); t.out == s.out + [ReadyForQuery(s.status)] && t.link == s.link && t.status == s.status
  {
  }

  lemma FourSteps(env: Env, s: Session, a: Message, b: Message, c: Message, d: Message)
    ensures Run(env, s, [a, b, c, d]) == Step(env, Step(env, Step(env, Step(env, s, a), b), c), d)
  {
    hide Step;
    var s1 := Step(env, s, a);
    var s2 := Step(env, s1, b);
    var s3 := Step(env, s2, c);
    assert [a] + [b, c, d] == [a, b, c, d] && [b] + [c, d] == [b, c, d] && [c] + [d] == [c, d] && [d] + [] == [d];
    RunFirst(env, s, a, [b, c, d]);
    RunFirst(env, s1, b, [c, d]);
    RunFirst(env, s2, c, [d]);
    RunFirst(env, s3, d, []);
  }

  lemma DescribedBegin()
    ensures var t := Run(ENV, Fresh(""), [Parse("", "BEGIN"), Bind("", "", []), Describe('P', ""), Sync]);
            t.out == [ParseComplete, BindComplete, NoData, ReadyForQuery(Idle)] && t.link.db.open
  {
    hide Run, Step, IsRowReturning, KeywordKind;
    BeginIsControl();
    DescribedRun(ENV, "", "BEGIN");
  }

  // --------------------------------------------- transaction control that returns rows

  /** After BEGIN, a COMMIT whose comment holds the word returning: a simple query reports T with
      nothing open; the same statement through the extended protocol reports I. */
  lemma CommentedCommitDiverges()
    ensures var s := Run(ENV, Fresh(""), [Query("BEGIN")]);
            var a, b := Run(ENV, s, [Query(COMMENTED)]), Run(ENV, s, Batch("", "", COMMENTED, []));
            && s.status == InTx && s.link.db.open
            && a.status == InTx && !a.link.db.open && a.out != [] && a.out[|a.out| - 1] == ReadyForQuery(InTx)
            && Diverges(ENV, s, COMMENTED) && b.status == Idle && b.link.db == a.link.db
  {
    hide *;
    var s := Run(ENV, Fresh(""), [Query("BEGIN")]);
    BeginOpens();
    CommentedCommit();
    CommentedIsText();
    DivergingCommit(s, COMMENTED);
  }

  lemma CommentedIsText()
    ensures TrimSpace(COMMENTED) != ""
  {
    assert Tight(COMMENTED);
    TrimTight(COMMENTED);
  }

  /** In an open transaction, a COMMIT that also counts as row-returning. */
  lemma DivergingCommit(s: Session, q: string)
    requires Conserved(s) && Active(s) && s.status == InTx && s.link.db.open
    requires KeywordKind(q) == Commit && IsRowReturning(q) && TrimSpace(q) != ""
    ensures var a, b := Run(ENV, s, [Query(q)]), Run(ENV, s, Batch("", "", q, []));
            && a.status == InTx && !a.link.db.open && a.out != [] && a.out[|a.out| - 1] == ReadyForQuery(InTx)
            && Diverges(ENV, s, q) && b.status == Idle && b.link.db == a.link.db
  {
    hide IsRowReturning, TrimSpace, LeadingKeyword, KeywordKind, Conserved, CommandTag, HandleQuery, Batch, OutcomeOf, Queries;
    var e := Verdict(ENV, s, q, []);
    assert e.status == InTx && !e.db.open && e.outcome.verdicts[0].CommandComplete?;
    NotedKind(q, s.status);
    SimpleEnds(ENV, s, q);
    ExtendedEnds(ENV, s, "", "", q, []);
    assert [Query(q)][1..] == [];
    assert Run(ENV, s, [Query(q)]) == HandleQuery(ENV, s, q);
    var rs := QueryAnswers(ENV, s, q);
  }

  lemma BeginOpens()
    ensures var s := Run(ENV, Fresh(""), [Query("BEGIN")]);
            Conserved(s) && Active(s) && s.status == InTx && s.link.db.open
  {
    hide IsRowReturning, TrimSpace, LeadingKeyword, KeywordKind, Conserved, CommandTag;
    BeginIsControl();
    NotedKind("BEGIN", Idle);
    assert Tight("BEGIN");
    TrimTight("BEGIN");
    FreshConserved("");
    RunConserves(ENV, Fresh(""), [Query("BEGIN")]);
    assert [Query("BEGIN")][1..] == [];
  }

  // ------------------------------------------------------------------- executed twice

  /** A portal of BEGIN executed, ended by COMMIT and executed again: T is reported with nothing open. */
  lemma ExecutedTwice()
    ensures var t := Run(ENV, Fresh(""), [Parse("", "BEGIN"), Bind("", "", []), Execute(""), Query("COMMIT"), Execute(""), Sync]);
            t.out != [] && t.out[|t.out| - 1] == ReadyForQuery(InTx) && !t.link.db.open
  {
    hide *;
    var s := Fresh("");
    var b := Step(ENV, Step(ENV, s, Parse("", "BEGIN")), Bind("", "", []));
    FreshConserved("");
    FreshBegins("");
    BeginIsControl();
    CommitIsControl();
    CommitIsText();
    ParseAndBind(ENV, s, "", "", "BEGIN", 0, []);
    SixSteps(ENV, s, Parse("", "BEGIN"), Bind("", "", []), Execute(""), Query("COMMIT"), Execute(""), Sync);
    ExecuteBegins(s, b, "BEGIN", "");
    var x := Step(ENV, b, Execute(""));
    QueryCommits(x, "COMMIT");
    var c := Step(ENV, x, Query("COMMIT"));
    ExecuteAgain(c, "");
    SyncAnswers(ENV, Step(ENV, c, Execute("")));
  }

  lemma FreshBegins(content: Content)
    ensures var s := Fresh(content);
            Active(s) && s.status == Idle && s.link.db == Db(content, content, false) &&
            ENV.driver.prepare(content, ENV.rewrite("BEGIN")) == Ok(0) && ENV.rewrite("BEGIN") == "BEGIN"
  {
  }

  lemma CommitIsText()
    ensures TrimSpace("COMMIT") != ""
  {
    assert Tight("COMMIT");
    TrimTight("COMMIT");
  }

  lemma SixSteps(env: Env, s: Session, a: Message, b: Message, c: Message, d: Message, e: Message, f: Message)
    ensures Run(env, s, [a, b, c, d, e, f]) == Step(env, Step(env, Step(env, Step(env, Step(env, Step(env, s, a), b), c), d), e), f)
  {
    hide Step;
    var s2 := Step(env, Step(env, s, a), b);
    assert [a] + [b, c, d, e, f] == [a, b, c, d, e, f] && [b] + [c, d, e, f] == [b, c, d, e, f];
    RunFirst(env, s, a, [b, c, d, e, f]);
    RunFirst(env, Step(env, s, a), b, [c, d, e, f]);
    FourSteps(env, s2, c, d, e, f);
  }

  lemma ExecuteBegins(s: Session, b: Session, q: string, portal: string)
    requires Bound(s, b, q, portal, 0, []) && s.status == Idle && !s.link.db.open && KeywordKind(q) == Begin && !IsRowReturning(q)
    ensures var x := Step(ENV, b, Execute(portal));
            && Active(x) && x.status == InTx && x.link.db.open && portal in x.portals
            && Spent(x.portals[portal]) && x.portals[portal].rows.None? && x.portals[portal].ps.query == q
  {
    hide IsRowReturning, KeywordKind, LeadingKeyword, CommandTag;
    NotedKind(q, Idle);
  }

  lemma QueryCommits(s: Session, q: string)
    requires Active(s) && s.status == InTx && s.link.db.open && KeywordKind(q) == Commit && !IsRowReturning(q) && TrimSpace(q) != ""
    ensures var t := Step(ENV, s, Query(q));
            Active(t) && t.status == Idle && !t.link.db.open && t.portals == s.portals
  {
    hide IsRowReturning, KeywordKind, LeadingKeyword, CommandTag, TrimSpace;
    NotedKind(q, InTx);
  }

  lemma ExecuteAgain(s: Session, portal: string)
    requires Active(s) && s.status == Idle && portal in s.portals && Spent(s.portals[portal]) && s.portals[portal].rows.None?
    requires KeywordKind(s.portals[portal].ps.query) == Begin
    ensures var t := Step(ENV, s, Execute(portal)); Active(t) && t.status == InTx && t.link.db == s.link.db
  {
    hide IsRowReturning, KeywordKind, LeadingKeyword, CommandTag;
    NotedKind(s.portals[portal].ps.query, Idle);
  }

  // ------------------------------------------------- a keyword glued to punctuation

  /** An engine that reads BEGIN; as BEGIN, whereas the session's keyword is the word BEGIN; itself. */
  const LENIENT := Env(text => text, ENGINE.(kind := q => if q == "BEGIN;" then Begin else KeywordKind(q)))

  lemma GluedKeyword()
    ensures KeywordKind("BEGIN;") == Ordinary && !IsRowReturning("BEGIN;") && TrimSpace("BEGIN;") != ""
  {
    hide HasWord, LeadingKeyword;
    FirstWord("BEGIN;", "");
    assert "BEGIN;" + "" == "BEGIN;" && ToUpper("BEGIN;") == "BEGIN;";
    NoWordWithout("BEGIN;", "returning", true);
    NotARowWord("BEGIN;");
    assert Tight("BEGIN;");
    TrimTight("BEGIN;");
  }

  lemma NotARowWord(kw: string)
    requires |kw| == 6 && kw[5] == ';'
    ensures kw !in {"SELECT", "VALUES", "WITH", "SHOW", "EXPLAIN", "TABLE", "PRAGMA"}
    ensures !IsTxBegin(kw) && !IsTxCommit(kw) && !IsTxRollback(kw)
  {
  }

  /** The simple query BEGIN; is answered with ReadyForQuery I while a transaction is open. */
  lemma GluedBegin()
    ensures var t := Run(LENIENT, Fresh(""), [Query("BEGIN;")]);
            t.out != [] && t.out[|t.out| - 1] == ReadyForQuery(Idle) && t.link.db.open && !Tracked(LENIENT, "BEGIN;")
  {
    hide IsRowReturning, TrimSpace, LeadingKeyword, KeywordKind, CommandTag;
    GluedKeyword();
    NotedKind("BEGIN;", Idle);
    assert [Query("BEGIN;")][1..] == [];
  }
}

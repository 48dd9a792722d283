/** The SQLite connection of a session, reduced to what the session can observe: the
    content of the database file, the open transaction, open handles, and what ran. */
module Sqlite {
  import opened Text

  /** The bytes of a database file. */
  type Content = string

  type Param = Option<string>

  datatype Failure =
    | EngineFailure(message: string)
    | FailedTransaction
    | NoSuchStatement(name: string)
    | NoSuchPortal(name: string)
    | BadDescribe(objectType: char)
    | MissingArguments(want: nat)
    | WrongArguments(want: nat, got: nat)
    | StatementClosed

  datatype Result<+T> = Ok(value: T) | Err(failure: Failure)

  datatype Column = Column(name: string, oid: nat)

  /** A row the cursor yields, or one the driver cannot convert. */
  datatype Scanned = Row(values: seq<Option<string>>) | Unscannable(message: string)

  /** What one statement does to the content it runs on. rolledBack says that its failure
      also ended the open transaction. */
  datatype Effect = Effect(content: Content, affected: int, rows: seq<Scanned>, failure: Option<string>, rolledBack: bool)

  datatype Kind = Begin | Commit | Rollback | Ordinary

  /** The parts of SQLite and its driver that stay closed: any functions at all. prepare gives
      the number of parameters; stale is what a cursor of a closed statement reports. */
  datatype Driver = Driver(
    prepare: (Content, string) -> Result<nat>,
    columns: (Content, string) -> Result<seq<Column>>,
    kind: string -> Kind,
    run: (Content, string, seq<Param>) -> Effect,
    stale: Option<string>)

  /** Committed and working content, and whether a transaction is open. */
  datatype Db = Db(committed: Content, working: Content, open: bool)

  /** Outside a transaction everything is committed. */
  predicate Settled(db: Db) {
    db.open || db.working == db.committed
  }

  function RolledBack(db: Db): Db {
    Db(db.committed, db.committed, false)
  }

  datatype Yield = Yield(rows: seq<Scanned>, affected: int, failure: Option<Failure>)

  function Fails(message: string): Yield {
    Yield([], 0, Some(EngineFailure(message)))
  }

  /** Running one statement to its end. */
  function Apply(d: Driver, db: Db, q: string, ps: seq<Param>): (Db, Yield) {
    var e := d.run(db.working, q, ps);
    match d.kind(q)
    case Begin =>
      if db.open then (db, Fails("cannot start a transaction within a transaction"))
      else if e.failure.Some? then (db, Fails(e.failure.value))
      else (db.(open := true), Yield([], e.affected, None))
    case Commit =>
      if !db.open then (db, Fails("cannot commit - no transaction is active"))
      else if e.failure.Some? then (if e.rolledBack then RolledBack(db) else db, Fails(e.failure.value))
      else (Db(db.working, db.working, false), Yield([], e.affected, None))
    case Rollback =>
      if !db.open then (db, Fails("cannot rollback - no transaction is active"))
      else (RolledBack(db), Yield([], e.affected, None))
    case Ordinary =>
      if e.failure.Some? && e.rolledBack && db.open then (RolledBack(db), Yield(e.rows, e.affected, Some(EngineFailure(e.failure.value))))
      else
        (if db.open then db.(working := e.content) else Db(e.content, e.content, false),
         Yield(e.rows, e.affected, if e.failure.Some? then Some(EngineFailure(e.failure.value)) else None))
  }

  // ------------------------------------------------------------------- handles

  datatype Prepared = Prepared(query: string, inputs: nat)

  /** stmt is the statement handle of the cursor, if it has one; owner the portal it serves. */
  datatype Cursor = Cursor(query: string, params: seq<Param>, stmt: Option<nat>, owner: Option<nat>)

  /** One execution of a statement, on behalf of a portal or of a simple query. */
  datatype Ran = Ran(owner: Option<nat>, query: string)

  datatype Link = Link(db: Db, stmts: map<nat, Prepared>, cursors: map<nat, Cursor>, next: nat, log: seq<Ran>)

  function Prepare(d: Driver, l: Link, q: string): (Link, Result<nat>) {
    match d.prepare(l.db.working, q)
    case Err(f) => (l, Err(f))
    case Ok(n) => (l.(stmts := l.stmts[l.next := Prepared(q, n)], next := l.next + 1), Ok(l.next))
  }

  function CloseStmt(l: Link, h: nat): Link {
    l.(stmts := l.stmts - {h})
  }

  function CloseCursor(l: Link, c: nat): Link {
    l.(cursors := l.cursors - {c})
  }

  function RunNow(d: Driver, l: Link, q: string, ps: seq<Param>, owner: Option<nat>): (Link, Yield) {
    var r := Apply(d, l.db, q, ps);
    (l.(db := r.0, log := l.log + [Ran(owner, q)]), r.1)
  }

  function Affected(y: Yield): Result<int> {
    if y.failure.Some? then Err(y.failure.value) else Ok(y.affected)
  }

  /** Whether text can be run as it is, without arguments. */
  function Direct(d: Driver, l: Link, q: string): Result<nat> {
    match d.prepare(l.db.working, q)
    case Err(f) => Err(f)
    case Ok(n) => if n > 0 then Err(MissingArguments(n)) else Ok(n)
  }

  /** Whether a prepared statement can be run with these arguments. */
  function Ready(l: Link, h: nat, ps: seq<Param>): Result<string> {
    if h !in l.stmts then Err(StatementClosed)
    else if |ps| != l.stmts[h].inputs then Err(WrongArguments(l.stmts[h].inputs, |ps|))
    else Ok(l.stmts[h].query)
  }

  function ExecDirect(d: Driver, l: Link, q: string): (Link, Result<int>) {
    match Direct(d, l, q)
    case Err(f) => (l, Err(f))
    case Ok(_) => var r := RunNow(d, l, q, [], None); (r.0, Affected(r.1))
  }

  function ExecStmt(d: Driver, l: Link, h: nat, ps: seq<Param>, owner: Option<nat>): (Link, Result<int>) {
    match Ready(l, h, ps)
    case Err(f) => (l, Err(f))
    case Ok(q) => var r := RunNow(d, l, q, ps, owner); (r.0, Affected(r.1))
  }

  function OpenCursor(l: Link, c: Cursor): (Link, Result<nat>) {
    (l.(cursors := l.cursors[l.next := c], next := l.next + 1), Ok(l.next))
  }

  /** A query only opens a cursor; the statement runs when the cursor is stepped. */
  function QueryDirect(d: Driver, l: Link, q: string): (Link, Result<nat>) {
    match Direct(d, l, q)
    case Err(f) => (l, Err(f))
    case Ok(_) => OpenCursor(l, Cursor(q, [], None, None))
  }

  function QueryStmt(l: Link, h: nat, ps: seq<Param>, owner: Option<nat>): (Link, Result<nat>) {
    match Ready(l, h, ps)
    case Err(f) => (l, Err(f))
    case Ok(q) => OpenCursor(l, Cursor(q, ps, Some(h), owner))
  }

  /** rows.ColumnTypes, an error on a closed cursor. */
  function ColumnTypes(d: Driver, l: Link, c: nat): Result<seq<Column>> {
    if c in l.cursors then d.columns(l.db.working, l.cursors[c].query) else Err(EngineFailure("sql: Rows are closed"))
  }

  /** Stepping a cursor to its end; a closed cursor has no rows. */
  function Drain(d: Driver, l: Link, c: nat): (Link, Yield) {
    if c !in l.cursors then (l, Yield([], 0, None))
    else
      var cur := l.cursors[c];
      if cur.stmt.Some? && cur.stmt.value !in l.stmts then
        (l, Yield([], 0, if d.stale.Some? then Some(EngineFailure(d.stale.value)) else None))
      else RunNow(d, l, cur.query, cur.params, cur.owner)
  }
}
